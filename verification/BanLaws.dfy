/** How long bans last, in every reachable state. */
module BanLaws {
  import opened Wrappers
  import opened Powers
  import opened TtlCache
  import opened Digest
  import opened Threat
  import opened ThreatLaws

  /** Each repeat doubles the ban, up to the cap. */
  lemma BanDoubles(p: Policy, offences: nat)
    requires offences >= 1
    ensures BanLength(p, offences + 1) == Min(p.maxBanSeconds, 2 * BanLength(p, offences))
    ensures BanLength(p, 1) == Min(p.maxBanSeconds, p.banSeconds)
  {
    var b, x := p.banSeconds, Pow2(offences - 1);
    assert Pow2(offences) == 2 * x;
    assert b * (2 * x) == 2 * (b * x);
  }

  lemma {:induction false} BanLengthMonotone(p: Policy, i: int, j: int)
    requires i <= j
    ensures BanLength(p, i) <= BanLength(p, j) <= p.maxBanSeconds
    decreases j - i
  {
    if i < j {
      BanLengthMonotone(p, i, j - 1);
      if j >= 2 {
        BanDoubles(p, j - 1);
      }
    }
  }

  /** Under the default policy the cap is reached at the eighth offence, and not before. */
  lemma DefaultBanIsCappedFromTheEighth(offences: nat)
    ensures BanLength(DEFAULT_POLICY, offences) == 86_400 <==> offences >= 8
  {
    assert Pow2(4) == 16;
    assert Pow2(6) == 4 * Pow2(4) && Pow2(7) == 2 * Pow2(6);
    if offences >= 8 {
      BanLengthMonotone(DEFAULT_POLICY, 8, offences);
    } else {
      BanLengthMonotone(DEFAULT_POLICY, offences, 7);
    }
  }

  /** What a record that bans leaves behind. */
  lemma BanFollowsOffences(cfg: Config, m: Store, now: int, ip: string, signal: Signal, subject: Option<Subject>)
    requires ip !in cfg.allowlist
    requires ValueOr0(Scored(cfg, m, now, ip, signal, subject), ScoreKey(ip)) >= cfg.policy.banAt
    ensures var m' := Recorded(cfg, m, now, ip, signal, subject);
            var served := ValueOr0(m, OffencesKey(ip)) + 1;
            && ValueOr0(m', OffencesKey(ip)) == served
            && BanKey(ip) in m'
            && m'[BanKey(ip)].value == now + 1000 * BanLength(cfg.policy, served) == m'[BanKey(ip)].expiresAt
            && ScoreKey(ip) in m' && m'[ScoreKey(ip)] == Scored(cfg, m, now, ip, signal, subject)[ScoreKey(ip)]
            && m'[ScoreKey(ip)].expiresAt == Rearmed(cfg.driver, m, now, ScoreKey(ip), cfg.policy.windowSeconds)
  {
    FamiliesDiffer(ip, ip);
    var key := SeenKey(ip, signal, subject);
    if key.Some? {
      FamilyMarks(ip, DigestOf(subject.value));
      FamilyMarks(ip, "");
    }
  }

  /** Both operator actions end the ban; clearing keeps the offences, so the next ban is longer, lifting forgets them. */
  lemma EscalationSurvivesClearing(cfg: Config, m: Store, now: int, ip: string)
    ensures ValueOr0(Step(cfg, m, now, Wipe(ip)), OffencesKey(ip)) == ValueOr0(m, OffencesKey(ip))
    ensures ValueOr0(Step(cfg, m, now, Lift(ip)), OffencesKey(ip)) == 0
    ensures Judged(cfg.policy, Step(cfg, m, now, Wipe(ip)), now, ip).level != Banned
    ensures Judged(cfg.policy, Step(cfg, m, now, Lift(ip)), now, ip).level != Banned
  {
    FamiliesDiffer(ip, ip);
  }

  // ── Reachable states ──

  ghost predicate SoundFor(cfg: Config, m: Store, now: int, ip: string) {
    && (BanKey(ip) in m ==>
          && m[BanKey(ip)].value <= now + cfg.policy.maxBanSeconds * 1000
          && m[BanKey(ip)].value == m[BanKey(ip)].expiresAt)
    && (ScoreKey(ip) in m ==>
          && m[ScoreKey(ip)].value > 0
          && m[ScoreKey(ip)].expiresAt <= now + cfg.policy.windowSeconds * 1000)
    && (OffencesKey(ip) in m ==> m[OffencesKey(ip)].value > 0)
  }

  /** No stored ban ends later than maxBanSeconds from now, and no score outlives its window. */
  ghost predicate Sound(cfg: Config, m: Store, now: int) {
    forall ip :: SoundFor(cfg, m, now, ip)
  }

  lemma StepKeepsSound(cfg: Config, m: Store, now: int, act: Action)
    requires Sound(cfg, m, now)
    ensures Sound(cfg, Step(cfg, m, now, act), now)
  {
    forall ip
      ensures SoundFor(cfg, Step(cfg, m, now, act), now, ip)
    {
      assert SoundFor(cfg, m, now, ip);
      if act.About(ip) {
        OwnStepKeepsSound(cfg, m, now, act);
      } else {
        StepIsLocal(cfg, m, now, act, ip);
        SoundIsLocal(cfg, m, Step(cfg, m, now, act), now, ip);
      }
    }
  }

  lemma SoundIsLocal(cfg: Config, m: Store, m': Store, now: int, ip: string)
    requires Own(ip, m) == Own(ip, m') && SoundFor(cfg, m, now, ip)
    ensures SoundFor(cfg, m', now, ip)
  {
    forall k | k in {ScoreKey(ip), BanKey(ip), OffencesKey(ip)}
      ensures k in m' ==> k in m && m'[k] == m[k]
    {
      assert k in m' ==> k in Own(ip, m') && Own(ip, m')[k] == m'[k];
    }
  }

  lemma OwnStepKeepsSound(cfg: Config, m: Store, now: int, act: Action)
    requires !act.NoteBlock? && !act.Ask? && SoundFor(cfg, m, now, act.ip)
    ensures SoundFor(cfg, Step(cfg, m, now, act), now, act.ip)
  {
    var ip := act.ip;
    FamiliesDiffer(ip, ip);
    match act
    case Report(_, signal, subject) =>
      if ip !in cfg.allowlist {
        var key := SeenKey(ip, signal, subject);
        if key.Some? {
          FamilyMarks(ip, DigestOf(subject.value));
          FamilyMarks(ip, "");
        }
        var m1 := Scored(cfg, m, now, ip, signal, subject);
        assert SoundFor(cfg, m1, now, ip);
        if ValueOr0(m1, ScoreKey(ip)) >= cfg.policy.banAt {
          BanFollowsOffences(cfg, m, now, ip, signal, subject);
        }
      }
    case _ =>
  }

  lemma SoundLater(cfg: Config, m: Store, now: int, later: int)
    requires Sound(cfg, m, now) && now <= later
    ensures Sound(cfg, Live(m, later), later)
  {
    forall ip
      ensures SoundFor(cfg, Live(m, later), later, ip)
    {
      assert SoundFor(cfg, m, now, ip);
    }
  }

  /** In every state reached from the empty cache, and whatever the operators do. */
  lemma {:induction false} RunIsSound(cfg: Config, evs: seq<Event>, start: int, t: int)
    requires InOrder(evs, start, t)
    ensures Sound(cfg, Live(Run(cfg, map[], evs), t), t)
    decreases |evs|
  {
    if evs != [] {
      var e, front := evs[|evs| - 1], evs[..|evs| - 1];
      RunIsSound(cfg, front, start, e.at);
      var before := Live(Run(cfg, map[], front), e.at);
      StepKeepsSound(cfg, before, e.at, e.act);
      SoundLater(cfg, Step(cfg, before, e.at, e.act), e.at, t);
    }
  }

  /** No automated or operator ban can last longer than the cap. */
  lemma BansAlwaysExpire(cfg: Config, evs: seq<Event>, ip: string, start: int, t: int)
    requires InOrder(evs, start, t)
    ensures Assessment(cfg, Live(Run(cfg, map[], evs), t), t, ip).banSecondsRemaining <= cfg.policy.maxBanSeconds
  {
    RunIsSound(cfg, evs, start, t);
    assert SoundFor(cfg, Live(Run(cfg, map[], evs), t), t, ip);
  }

  // ── Operators, and what is remembered ──

  /** An operator's ban lasts as long as asked, but a minute at least and the cap at most, and counts as an offence. */
  lemma OperatorBanLasts(cfg: Config, m: Store, now: int, ip: string, seconds: int)
    requires ip !in cfg.allowlist && cfg.policy.maxBanSeconds >= 60
    ensures var s := Assessment(cfg, Step(cfg, m, now, BanByOperator(ip, seconds)), now, ip);
            && s.level == Banned
            && s.banSecondsRemaining == (if seconds < 60 then 60 else if seconds > cfg.policy.maxBanSeconds then cfg.policy.maxBanSeconds else seconds)
            && s.offences == ValueOr0(m, OffencesKey(ip)) + 1
            && s.score == ValueOr0(m, ScoreKey(ip))
  {
    FamiliesDiffer(ip, ip);
  }

  /** Both operator actions leave no score and no spent budget. */
  lemma ClearedStartsOver(cfg: Config, m: Store, now: int, ip: string)
    requires cfg.policy.throttleAt > 0
    ensures forall act :: act in [Wipe(ip), Lift(ip)] ==>
              var r := Step(cfg, m, now, act);
              var s := Assessment(cfg, r, now, ip);
              s.level == Normal && s.score == 0 && s.banSecondsRemaining == 0 && ValueOr0(r, BudgetKey(ip)) == 0
  {
    FamiliesDiffer(ip, ip);
  }

  /** A first offence is remembered for seven days, and then no more. */
  lemma OffenceIsRememberedAWeek(cfg: Config, m: Store, now: int, ip: string, signal: Signal, subject: Option<Subject>, t: int)
    requires ip !in cfg.allowlist && OffencesKey(ip) !in m && now <= t
    requires ValueOr0(Scored(cfg, m, now, ip, signal, subject), ScoreKey(ip)) >= cfg.policy.banAt
    ensures Assessment(cfg, Live(Recorded(cfg, m, now, ip, signal, subject), t), t, ip).offences
         == if t <= now + 7 * 24 * 3600 * 1000 then 1 else 0
  {
    FamiliesDiffer(ip, ip);
    var key := SeenKey(ip, signal, subject);
    if key.Some? {
      FamilyMarks(ip, DigestOf(subject.value));
    }
  }

  /** An address on the allowlist is neither scored nor banned for anything it does, and stands as normal whatever is stored. */
  lemma AllowlistedIsSpared(cfg: Config, m: Store, now: int, ip: string, signal: Signal, subject: Option<Subject>)
    requires ip in cfg.allowlist
    ensures Step(cfg, m, now, Report(ip, signal, subject)) == m
    ensures Assessment(cfg, m, now, ip) == Standing(ip, Normal, 0, 0, 0)
  {
  }

  /** The fleet counts its bans and its blocked requests; a count is kept for a day. */
  lemma FleetCountsLastADay(cfg: Config, m: Store, now: int, ip: string, t: int)
    requires BLOCKED_TOTAL !in m && BANNED_TOTAL !in m && now <= t
    ensures var r := Live(Step(cfg, m, now, NoteBlock), t);
            ValueOr0(r, BLOCKED_TOTAL) == (if t <= now + 86_400_000 then 1 else 0) && ValueOr0(r, BANNED_TOTAL) == 0
    ensures ValueOr0(Live(BanPlaced(cfg, m, now, ip), t), BANNED_TOTAL) == if t <= now + 86_400_000 then 1 else 0
  {
    FamiliesDiffer(ip, ip);
  }
}
