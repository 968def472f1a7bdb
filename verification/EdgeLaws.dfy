/** Runs of the edge pipeline as runs of the tracker. */
module EdgeLaws {
  import opened Wrappers
  import opened TtlCache
  import opened Digest
  import opened Threat
  import opened RateLimit
  import opened ThreatLaws
  import opened BanLaws
  import opened ScoreLaws
  import opened Edge

  // ── The tracker events behind a run of requests ──

  function Stamped(at: int, acts: seq<Action>): seq<Event> {
    seq(|acts|, i requires 0 <= i < |acts| => Event(at, acts[i]))
  }

  /** What an event does to the tracker, from the store it finds. */
  function ActionsOf(cfg: Config, gate: Gate, m: Store, e: EdgeEvent): seq<Action> {
    match e
    case Served(at, r) => Actions(cfg, gate, m, at, r)
    case Operated(_, act) => [act]
  }

  /** The store an event finds. */
  function Found(cfg: Config, gate: Gate, m: Store, front: seq<EdgeEvent>, e: EdgeEvent): Store {
    Live(EdgeRun(cfg, gate, m, front), e.at)
  }

  function Trace(cfg: Config, gate: Gate, m: Store, evs: seq<EdgeEvent>): seq<Event>
    decreases |evs|
  {
    if evs == [] then []
    else
      var e, front := evs[|evs| - 1], evs[..|evs| - 1];
      Trace(cfg, gate, m, front) + Stamped(e.at, ActionsOf(cfg, gate, Found(cfg, gate, m, front, e), e))
  }

  lemma RaiseStaysLive(d: Driver, m: Store, now: int, key: string, amount: nat, ttl: nat)
    requires Live(m, now) == m
    ensures Live(Raise(d, m, now, key, amount, ttl), now) == Raise(d, m, now, key, amount, ttl)
  {
    assert forall k :: k in m ==> k in Live(m, now);
  }

  lemma PutStaysLive(m: Store, now: int, key: string, value: int, ttl: nat)
    requires Live(m, now) == m
    ensures Live(Put(m, now, key, value, ttl), now) == Put(m, now, key, value, ttl)
  {
    assert forall k :: k in m ==> k in Live(m, now);
  }

  lemma BanStaysLive(cfg: Config, m: Store, now: int, ip: string)
    requires Live(m, now) == m
    ensures Live(BanPlaced(cfg, m, now, ip), now) == BanPlaced(cfg, m, now, ip)
  {
    var m1 := Raise(cfg.driver, m, now, OffencesKey(ip), 1, OFFENCE_MEMORY_SECONDS);
    var seconds := BanLength(cfg.policy, ValueOr0(m, OffencesKey(ip)) + 1);
    var m2 := Put(m1, now, BanKey(ip), now + seconds * 1000, seconds);
    RaiseStaysLive(cfg.driver, m, now, OffencesKey(ip), 1, OFFENCE_MEMORY_SECONDS);
    PutStaysLive(m1, now, BanKey(ip), now + seconds * 1000, seconds);
    RaiseStaysLive(cfg.driver, m2, now, BANNED_TOTAL, 1, COUNTER_SECONDS);
  }

  /** Nothing an action stores has expired at once. */
  lemma StepStaysLive(cfg: Config, m: Store, now: int, act: Action)
    requires Live(m, now) == m
    ensures Live(Step(cfg, m, now, act), now) == Step(cfg, m, now, act)
  {
    match act
    case Report(ip, signal, subject) =>
      if ip !in cfg.allowlist {
        var key := SeenKey(ip, signal, subject);
        if key.Some? {
          RaiseStaysLive(cfg.driver, m, now, key.value, 1, cfg.policy.windowSeconds);
        }
        RaiseStaysLive(cfg.driver, Remembered(cfg, m, now, ip, signal, subject), now, ScoreKey(ip),
                       Weight(Effective(m, ip, signal, subject)), cfg.policy.windowSeconds);
        BanStaysLive(cfg, Scored(cfg, m, now, ip, signal, subject), now, ip);
      }
    case Spend(ip) => RaiseStaysLive(cfg.driver, m, now, BudgetKey(ip), 1, BUDGET_SECONDS);
    case BanByOperator(ip, seconds) =>
      var capped := BanNowLength(cfg.policy, seconds);
      PutStaysLive(m, now, BanKey(ip), now + capped * 1000, capped);
      RaiseStaysLive(cfg.driver, Put(m, now, BanKey(ip), now + capped * 1000, capped), now,
                     OffencesKey(ip), 1, OFFENCE_MEMORY_SECONDS);
    case NoteBlock => RaiseStaysLive(cfg.driver, m, now, BLOCKED_TOTAL, 1, COUNTER_SECONDS);
    case Ask(identity, limit) => RaiseStaysLive(cfg.driver, m, now, RateKey(identity), 1, TtlSeconds(limit.windowMs));
    case Lift(ip) => assert forall k :: k in m ==> k in Live(m, now);
    case Wipe(ip) => assert forall k :: k in m ==> k in Live(m, now);
  }

  lemma StampedOneMore(front: seq<Event>, at: int, acts: seq<Action>)
    requires acts != []
    ensures var n, all := |acts| - 1, front + Stamped(at, acts);
            all != [] && all[|all| - 1] == Event(at, acts[n]) && all[..|all| - 1] == front + Stamped(at, acts[..n])
  {
  }

  lemma RunOneMore(cfg: Config, m: Store, front: seq<Event>, at: int, acts: seq<Action>)
    requires acts != []
    ensures Run(cfg, m, front + Stamped(at, acts))
         == Step(cfg, Live(Run(cfg, m, front + Stamped(at, acts[..|acts| - 1])), at), at, acts[|acts| - 1])
  {
    StampedOneMore(front, at, acts);
  }

  /** Actions performed at one instant are so many events at that instant. */
  lemma {:induction false} PerformIsRun(cfg: Config, m: Store, front: seq<Event>, at: int, acts: seq<Action>)
    ensures var r := Perform(cfg, Live(Run(cfg, m, front), at), at, acts);
            Live(Run(cfg, m, front + Stamped(at, acts)), at) == r && Live(r, at) == r
    decreases |acts|
  {
    if acts == [] {
      assert front + Stamped(at, acts) == front;
      LiveLater(Run(cfg, m, front), at, at);
    } else {
      var n := |acts| - 1;
      PerformIsRun(cfg, m, front, at, acts[..n]);
      RunOneMore(cfg, m, front, at, acts);
      StepStaysLive(cfg, Perform(cfg, Live(Run(cfg, m, front), at), at, acts[..n]), at, acts[n]);
    }
  }

  lemma PerformIsRunLater(cfg: Config, m: Store, front: seq<Event>, at: int, acts: seq<Action>, t: int)
    requires at <= t
    ensures Live(Run(cfg, m, front + Stamped(at, acts)), t) == Live(Perform(cfg, Live(Run(cfg, m, front), at), at, acts), t)
  {
    PerformIsRun(cfg, m, front, at, acts);
    LiveLater(Run(cfg, m, front + Stamped(at, acts)), at, t);
  }

  lemma StampedInOrder(front: seq<Event>, start: int, at: int, acts: seq<Action>, t: int)
    requires InOrder(front, start, at) && at <= t
    ensures InOrder(front + Stamped(at, acts), start, t)
  {
  }

  lemma {:induction false} TraceInOrder(cfg: Config, gate: Gate, m: Store, evs: seq<EdgeEvent>, start: int, t: int)
    requires EdgeInOrder(evs, start, t)
    ensures InOrder(Trace(cfg, gate, m, evs), start, t)
    decreases |evs|
  {
    if evs != [] {
      var e, front := evs[|evs| - 1], evs[..|evs| - 1];
      TraceInOrder(cfg, gate, m, front, start, e.at);
      StampedInOrder(Trace(cfg, gate, m, front), start, e.at, ActionsOf(cfg, gate, Found(cfg, gate, m, front, e), e), t);
    }
  }

  lemma EdgeStepPerforms(cfg: Config, gate: Gate, m: Store, e: EdgeEvent)
    ensures EdgeStep(cfg, gate, m, e) == Perform(cfg, m, e.at, ActionsOf(cfg, gate, m, e))
  {
    if e.Operated? {
      PerformOne(cfg, m, e.at, [], e.act);
      assert [] + [e.act] == ActionsOf(cfg, gate, m, e);
    }
  }

  /** Every run of requests and operator actions is the run of its trace. */
  lemma {:induction false} EdgeRunIsRun(cfg: Config, gate: Gate, m: Store, evs: seq<EdgeEvent>, start: int, t: int)
    requires EdgeInOrder(evs, start, t)
    ensures Live(EdgeRun(cfg, gate, m, evs), t) == Live(Run(cfg, m, Trace(cfg, gate, m, evs)), t)
    decreases |evs|
  {
    if evs != [] {
      var e, front := evs[|evs| - 1], evs[..|evs| - 1];
      EdgeRunIsRun(cfg, gate, m, front, start, e.at);
      var before := Found(cfg, gate, m, front, e);
      EdgeStepPerforms(cfg, gate, before, e);
      PerformIsRunLater(cfg, m, Trace(cfg, gate, m, front), e.at, ActionsOf(cfg, gate, before, e), t);
    }
  }

  /** So in every state reached from the empty cache no ban outlasts the cap and no score its window. */
  lemma EdgeRunIsSound(cfg: Config, gate: Gate, evs: seq<EdgeEvent>, start: int, t: int)
    requires EdgeInOrder(evs, start, t)
    ensures Sound(cfg, Live(EdgeRun(cfg, gate, map[], evs), t), t)
  {
    EdgeRunIsRun(cfg, gate, map[], evs, start, t);
    TraceInOrder(cfg, gate, map[], evs, start, t);
    RunIsSound(cfg, Trace(cfg, gate, map[], evs), start, t);
  }

  /** From the empty cache: whatever led to a ban, its end leaves score 0 and a normal standing. */
  lemma EveryLapsedBanLeavesNoScore(cfg: Config, gate: Gate, past: seq<EdgeEvent>, start: int, now: int, ip: string,
                                    signal: Signal, subject: Option<Subject>, evs: seq<EdgeEvent>, t: int)
    requires EdgeInOrder(past, start, now) && ip !in cfg.allowlist
    requires cfg.policy.windowSeconds <= cfg.policy.banSeconds <= cfg.policy.maxBanSeconds && cfg.policy.throttleAt > 0
    requires var m := Live(EdgeRun(cfg, gate, map[], past), now);
             var until := now + 1000 * BanLength(cfg.policy, ValueOr0(m, OffencesKey(ip)) + 1);
             && ValueOr0(Scored(cfg, m, now, ip, signal, subject), ScoreKey(ip)) >= cfg.policy.banAt
             && EdgeInOrder(evs, now, t) && until < t && OnlyRequestsBefore(evs, ip, until)
    ensures var m := Live(EdgeRun(cfg, gate, map[], past), now);
            var s := Assessment(cfg, Live(EdgeRun(cfg, gate, Recorded(cfg, m, now, ip, signal, subject), evs), t), t, ip);
            s.level == Normal && s.score == 0
  {
    var m := Live(EdgeRun(cfg, gate, map[], past), now);
    EdgeRunIsSound(cfg, gate, past, start, now);
    LiveLater(EdgeRun(cfg, gate, map[], past), now, now);
    LapsedBanLeavesNoScore(cfg, gate, m, now, ip, signal, subject, evs, t);
  }

  /** The score of an address over a run of whole requests, failed logins counted by the handler and the finish hook. */
  lemma EdgeScoreBySignals(cfg: Config, gate: Gate, m: Store, evs: seq<EdgeEvent>, ip: string, start: int, t: int)
    requires EdgeInOrder(evs, start, t) && OneWindow(cfg, m, Trace(cfg, gate, m, evs), ip, start, t)
    ensures var trace := Trace(cfg, gate, m, evs);
            var n, k := Reports(trace, ip, AuthFailure), |SeenDigests(trace, ip, AuthFailure)|;
            var n', k' := Reports(trace, ip, NotFound), |SeenDigests(trace, ip, NotFound)|;
            Assessment(cfg, Live(EdgeRun(cfg, gate, m, evs), t), t, ip).score
            == 22 * k + 8 * (n - k) + 9 * k' + 2 * (n' - k') + OtherWeights(trace, ip)
  {
    EdgeRunIsRun(cfg, gate, m, evs, start, t);
    ScoreBySignals(cfg, m, Trace(cfg, gate, m, evs), ip, start, t);
  }
}
