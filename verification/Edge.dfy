/** The edge pipeline in front of every handler, and what it records about the caller. */
module Edge {
  import opened Wrappers
  import opened TtlCache
  import opened Digest
  import opened Threat
  import opened RateLimit
  import opened ThreatLaws
  import opened BanLaws

  datatype WafMode = Block | ReportOnly | Off

  datatype Gate = Gate(mode: WafMode, limit: Limit)

  /**
   * A request, with the verdicts this pipeline does not compute: the firewall's, and the handler's (its status,
   * and the accounts it reports a failed login against).
   */
  datatype Request =
    | Preflight(ip: string)
    | HealthProbe(ip: string, status: nat)
    | Call(ip: string, wafBlocked: bool, status: nat, failedLogins: seq<Subject>, route: Subject)

  function ClientIdentity(ip: string): string { "ip:" + ip }

  // ── What a request amounts to ──

  /** The finish hook: the signal a response status gives. */
  function OutcomeActions(ip: string, status: nat, route: Subject): seq<Action> {
    if status == 401 then [Report(ip, AuthFailure, None)]
    else if status == 403 then [Report(ip, Forbidden, None)]
    else if status == 404 then [Report(ip, NotFound, Some(route))]
    else if status >= 500 then [Report(ip, ServerError, None)]
    else []
  }

  function LoginActions(ip: string, failed: seq<Subject>): seq<Action>
    decreases |failed|
  {
    if failed == [] then []
    else LoginActions(ip, failed[..|failed| - 1]) + [Report(ip, AuthFailure, Some(failed[|failed| - 1]))]
  }

  predicate OverBudget(cfg: Config, m: Store, now: int, ip: string) {
    && Assessment(cfg, m, now, ip).level == Throttled
    && ValueOr0(m, BudgetKey(ip)) + 1 > cfg.policy.throttledBudget
  }

  function WafActions(mode: WafMode, ip: string, blocked: bool): seq<Action> {
    if mode != Off && blocked then [NoteBlock, Report(ip, WafBlock, None)] else []
  }

  predicate LimiterAllows(gate: Gate, m: Store, ip: string) { Allows(m, ClientIdentity(ip), gate.limit) }

  /** The budget of a throttled address, and the fixed limiter behind it. */
  function ThrottleActions(cfg: Config, gate: Gate, m: Store, now: int, ip: string): seq<Action> {
    var spend := if Assessment(cfg, m, now, ip).level == Throttled then [Spend(ip)] else [];
    if OverBudget(cfg, m, now, ip) then spend else spend + LimiterActions(gate, m, ip)
  }

  function LimiterActions(gate: Gate, m: Store, ip: string): seq<Action> {
    [Ask(ClientIdentity(ip), gate.limit)] + (if LimiterAllows(gate, m, ip) then [] else [Report(ip, RateLimited, None)])
  }

  /** The actions a request causes in the cache, from the store it finds. */
  function Actions(cfg: Config, gate: Gate, m: Store, now: int, r: Request): seq<Action> {
    match r
    case Preflight(_) => []
    case HealthProbe(ip, _) => [Ask(ClientIdentity(ip), gate.limit)]
    case Call(ip, blocked, status, failed, route) =>
      if Assessment(cfg, m, now, ip).level == Banned then []
      else if gate.mode == Block && blocked then WafActions(gate.mode, ip, blocked)
      else
        var admitted := WafActions(gate.mode, ip, blocked) + ThrottleActions(cfg, gate, m, now, ip);
        if OverBudget(cfg, m, now, ip) || !LimiterAllows(gate, m, ip) then admitted
        else admitted + LoginActions(ip, failed) + OutcomeActions(ip, status, route)
  }

  function StatusOf(cfg: Config, gate: Gate, m: Store, now: int, r: Request): nat {
    match r
    case Preflight(_) => 204
    case HealthProbe(ip, status) => if LimiterAllows(gate, m, ip) then status else 429
    case Call(ip, blocked, status, _, _) =>
      if Assessment(cfg, m, now, ip).level == Banned then 429
      else if gate.mode == Block && blocked then 400
      else if OverBudget(cfg, m, now, ip) || !LimiterAllows(gate, m, ip) then 429
      else status
  }

  /** A sequence of actions at one instant. */
  function Perform(cfg: Config, m: Store, now: int, acts: seq<Action>): Store
    decreases |acts|
  {
    if acts == [] then m else Step(cfg, Perform(cfg, m, now, acts[..|acts| - 1]), now, acts[|acts| - 1])
  }

  lemma PerformOne(cfg: Config, m: Store, now: int, acts: seq<Action>, act: Action)
    ensures Perform(cfg, m, now, acts + [act]) == Step(cfg, Perform(cfg, m, now, acts), now, act)
  {
    assert (acts + [act])[..|acts + [act]| - 1] == acts;
  }

  /** The counters an address spends from stand as before. */
  predicate SameCounters(m: Store, m': Store, ip: string) {
    && ValueOr0(m, BudgetKey(ip)) == ValueOr0(m', BudgetKey(ip))
    && ValueOr0(m, RateKey(ClientIdentity(ip))) == ValueOr0(m', RateKey(ClientIdentity(ip)))
  }

  class Pipeline {
    const gate: Gate
    const tracker: Tracker

    constructor (gate: Gate, tracker: Tracker)
      ensures this.gate == gate && this.tracker == tracker
    {
      this.gate := gate;
      this.tracker := tracker;
    }

    /** Record one signal, as the next of the actions performed at this instant. */
    method Note(ip: string, signal: Signal, subject: Option<Subject>, now: int, ghost before: Store, ghost acts: seq<Action>)
      requires tracker.cache.driver == tracker.cfg.driver
      requires tracker.Readable(now) == Perform(tracker.cfg, before, now, acts)
      modifies tracker.cache
      ensures tracker.Readable(now) == Perform(tracker.cfg, before, now, acts + [Report(ip, signal, subject)])
    {
      PerformOne(tracker.cfg, before, now, acts, Report(ip, signal, subject));
      var _ := tracker.Record(ip, signal, subject, now);
    }

    /** A matched rule: counted fleet-wide, and scored against the address. */
    method NoteWaf(ip: string, now: int) returns (ghost acts: seq<Action>)
      requires tracker.cache.driver == tracker.cfg.driver
      modifies tracker.cache
      ensures acts == [NoteBlock, Report(ip, WafBlock, None)]
      ensures var before := old(tracker.Readable(now));
              && tracker.Readable(now) == Perform(tracker.cfg, before, now, acts)
              && SameCounters(tracker.Readable(now), before, ip)
    {
      ghost var before := tracker.Readable(now);
      tracker.NoteWafBlock(now);
      PerformOne(tracker.cfg, before, now, [], NoteBlock);
      Note(ip, WafBlock, None, now, before, [] + [NoteBlock]);
      acts := [] + [NoteBlock] + [Report(ip, WafBlock, None)];
      BlockKeepsCounters(tracker.cfg, before, now, ip);
    }

    /** Ask the fixed limiter; a refusal is recorded unless it was a liveness probe. */
    method AskLimiter(ip: string, isProbe: bool, now: int, ghost before: Store, ghost acts0: seq<Action>)
      returns (allowed: bool, ghost acts: seq<Action>)
      requires tracker.cache.driver == tracker.cfg.driver
      requires tracker.Readable(now) == Perform(tracker.cfg, before, now, acts0)
      requires ValueOr0(tracker.Readable(now), RateKey(ClientIdentity(ip))) == ValueOr0(before, RateKey(ClientIdentity(ip)))
      modifies tracker.cache
      ensures allowed <==> LimiterAllows(gate, before, ip)
      ensures acts == acts0 + if isProbe then [Ask(ClientIdentity(ip), gate.limit)] else LimiterActions(gate, before, ip)
      ensures tracker.Readable(now) == Perform(tracker.cfg, before, now, acts)
    {
      ghost var ask := Ask(ClientIdentity(ip), gate.limit);
      PerformOne(tracker.cfg, before, now, acts0, ask);
      var remaining: int;
      allowed, remaining := CheckRateLimit(tracker.cache, ClientIdentity(ip), gate.limit, now);
      acts := acts0 + [ask];
      if !allowed && !isProbe {
        Note(ip, RateLimited, None, now, before, acts);
        acts := acts + [Report(ip, RateLimited, None)];
      }
    }

    /** Spend from the budget if throttled, then ask the fixed limiter. */
    method Throttle(ip: string, level: Level, now: int, ghost before: Store, ghost acts0: seq<Action>)
      returns (passes: bool, ghost acts: seq<Action>)
      requires tracker.cache.driver == tracker.cfg.driver
      requires level == Assessment(tracker.cfg, before, now, ip).level
      requires tracker.Readable(now) == Perform(tracker.cfg, before, now, acts0)
      requires SameCounters(tracker.Readable(now), before, ip)
      modifies tracker.cache
      ensures tracker.Readable(now) == Perform(tracker.cfg, before, now, acts)
      ensures acts == acts0 + ThrottleActions(tracker.cfg, gate, before, now, ip)
      ensures passes <==> !OverBudget(tracker.cfg, before, now, ip) && LimiterAllows(gate, before, ip)
    {
      acts := acts0;
      if level == Throttled {
        PerformOne(tracker.cfg, before, now, acts0, Spend(ip));
        SpendKeepsLimiter(tracker.cfg, tracker.Readable(now), now, ip);
        var within := tracker.SpendThrottledBudget(ip, now);
        acts := acts0 + [Spend(ip)];
        if !within {
          return false, acts;
        }
      } else {
        assert acts0 + [] == acts0;
      }
      passes, acts := AskLimiter(ip, false, now, before, acts);
    }

    /** Steps 2 to 4 of the edge defence, for an address that is not banned: a refusal carries its status. */
    method Admit(r: Request, level: Level, now: int) returns (refusal: Option<nat>, ghost acts: seq<Action>)
      requires r.Call? && tracker.cache.driver == tracker.cfg.driver && level != Banned
      requires level == Assessment(tracker.cfg, tracker.Readable(now), now, r.ip).level
      modifies tracker.cache
      ensures var before, cfg := old(tracker.Readable(now)), tracker.cfg;
              && tracker.Readable(now) == Perform(cfg, before, now, acts)
              && if gate.mode == Block && r.wafBlocked then refusal == Some(400) && acts == WafActions(gate.mode, r.ip, true)
                 else
                   && acts == WafActions(gate.mode, r.ip, r.wafBlocked) + ThrottleActions(cfg, gate, before, now, r.ip)
                   && refusal == if OverBudget(cfg, before, now, r.ip) || !LimiterAllows(gate, before, r.ip) then Some(429) else None
    {
      ghost var before := tracker.Readable(now);
      acts := [];
      if gate.mode != Off && r.wafBlocked {
        acts := NoteWaf(r.ip, now);
        if gate.mode == Block {
          return Some(400), acts;
        }
      }
      var passes;
      passes, acts := Throttle(r.ip, level, now, before, acts);
      refusal := if passes then None else Some(429);
    }

    /** Serve one request; the handler's verdict comes with the request. */
    method Handle(r: Request, now: int) returns (status: nat)
      requires tracker.cache.driver == tracker.cfg.driver
      modifies tracker.cache
      ensures var before := old(tracker.Readable(now));
              && status == StatusOf(tracker.cfg, gate, before, now, r)
              && tracker.Readable(now) == Perform(tracker.cfg, before, now, Actions(tracker.cfg, gate, before, now, r))
    {
      ghost var before := tracker.Readable(now);
      if r.Preflight? {
        return 204;
      }
      if r.HealthProbe? {
        var allowed, _ := AskLimiter(r.ip, true, now, before, []);
        return if allowed then r.status else 429;
      }
      var state := tracker.Assess(r.ip, now);
      if state.level == Banned {
        return 429;
      }
      var refusal, acts := Admit(r, state.level, now);
      if refusal.Some? {
        return refusal.value;
      }
      ReportFailedLogins(r, now, before, acts);
      Finish(r, now, before, acts + LoginActions(r.ip, r.failedLogins));
      status := r.status;
    }

    /** The login handler reports the account it was asked for, where the address is still at hand. */
    method ReportFailedLogins(r: Request, now: int, ghost before: Store, ghost admitted: seq<Action>)
      requires r.Call? && tracker.cache.driver == tracker.cfg.driver
      requires tracker.Readable(now) == Perform(tracker.cfg, before, now, admitted)
      modifies tracker.cache
      ensures tracker.Readable(now) == Perform(tracker.cfg, before, now, admitted + LoginActions(r.ip, r.failedLogins))
    {
      ghost var acts := admitted;
      for i := 0 to |r.failedLogins|
        invariant acts == admitted + LoginActions(r.ip, r.failedLogins[..i])
        invariant tracker.Readable(now) == Perform(tracker.cfg, before, now, acts)
      {
        Note(r.ip, AuthFailure, Some(r.failedLogins[i]), now, before, acts);
        assert r.failedLogins[..i + 1][..i] == r.failedLogins[..i];
        acts := acts + [Report(r.ip, AuthFailure, Some(r.failedLogins[i]))];
      }
      assert r.failedLogins[..|r.failedLogins|] == r.failedLogins;
    }

    /** Behaviour scoring reads the outcome. */
    method Finish(r: Request, now: int, ghost before: Store, ghost acts: seq<Action>)
      requires r.Call? && tracker.cache.driver == tracker.cfg.driver
      requires tracker.Readable(now) == Perform(tracker.cfg, before, now, acts)
      modifies tracker.cache
      ensures tracker.Readable(now) == Perform(tracker.cfg, before, now, acts + OutcomeActions(r.ip, r.status, r.route))
    {
      if r.status == 401 {
        Note(r.ip, AuthFailure, None, now, before, acts);
      } else if r.status == 403 {
        Note(r.ip, Forbidden, None, now, before, acts);
      } else if r.status == 404 {
        Note(r.ip, NotFound, Some(r.route), now, before, acts);
      } else if r.status >= 500 {
        Note(r.ip, ServerError, None, now, before, acts);
      } else {
        assert acts + [] == acts;
      }
    }
  }

  lemma SpendKeepsLimiter(cfg: Config, m: Store, now: int, ip: string)
    ensures ValueOr0(Spent(cfg, m, now, ip), RateKey(ClientIdentity(ip))) == ValueOr0(m, RateKey(ClientIdentity(ip)))
  {
    LimiterKeysApart(ip, BudgetKey(ip), ClientIdentity(ip));
  }

  lemma BlockKeepsCounters(cfg: Config, m: Store, now: int, ip: string)
    ensures SameCounters(Perform(cfg, m, now, [NoteBlock, Report(ip, WafBlock, None)]), m, ip)
  {
    FamiliesDiffer(ip, ip);
    LimiterKeysApart(ip, ScoreKey(ip), ClientIdentity(ip));
    LimiterKeysApart(ip, BanKey(ip), ClientIdentity(ip));
    LimiterKeysApart(ip, OffencesKey(ip), ClientIdentity(ip));
    LimiterKeysApart(ip, BANNED_TOTAL, ClientIdentity(ip));
    LimiterKeysApart(ip, BLOCKED_TOTAL, ClientIdentity(ip));
    assert [NoteBlock, Report(ip, WafBlock, None)][..1] == [NoteBlock] && [NoteBlock][..0] == [];
  }

  // ── Runs of requests and operator actions ──

  datatype EdgeEvent = Served(at: int, request: Request) | Operated(at: int, act: Action)
  {
    /** The address behind the event, if any. */
    predicate About(who: string) {
      if Served? then request.ip == who else act.About(who) || Counts(act, who)
    }
  }

  function EdgeStep(cfg: Config, gate: Gate, m: Store, e: EdgeEvent): Store {
    match e
    case Served(at, r) => Perform(cfg, m, at, Actions(cfg, gate, m, at, r))
    case Operated(at, act) => Step(cfg, m, at, act)
  }

  function EdgeRun(cfg: Config, gate: Gate, m: Store, evs: seq<EdgeEvent>): Store
    decreases |evs|
  {
    if evs == [] then m
    else
      var e := evs[|evs| - 1];
      EdgeStep(cfg, gate, Live(EdgeRun(cfg, gate, m, evs[..|evs| - 1]), e.at), e)
  }

  ghost predicate EdgeInOrder(evs: seq<EdgeEvent>, start: int, end: int) {
    && start <= end
    && (forall i :: 0 <= i < |evs| ==> start <= evs[i].at <= end)
    && (forall i, j :: 0 <= i < j < |evs| ==> evs[i].at <= evs[j].at)
  }

  lemma {:induction false} PerformIsLocal(cfg: Config, m: Store, now: int, acts: seq<Action>, ip: string)
    requires forall i :: 0 <= i < |acts| ==> !acts[i].About(ip)
    ensures Own(ip, Perform(cfg, m, now, acts)) == Own(ip, m)
    decreases |acts|
  {
    if acts != [] {
      PerformIsLocal(cfg, m, now, acts[..|acts| - 1], ip);
      StepIsLocal(cfg, Perform(cfg, m, now, acts[..|acts| - 1]), now, acts[|acts| - 1], ip);
    }
  }

  /** None of the actions is about the address, nor counts a request of it. */
  predicate NoneAbout(acts: seq<Action>, ip: string) {
    forall i :: 0 <= i < |acts| ==> !acts[i].About(ip) && !Counts(acts[i], ip)
  }

  predicate Counts(act: Action, ip: string) { act.Ask? && act.identity == ClientIdentity(ip) }

  lemma IdentitiesDiffer(ip: string, ip': string)
    requires ip != ip'
    ensures ClientIdentity(ip) != ClientIdentity(ip')
  {
    if ClientIdentity(ip) == ClientIdentity(ip') {
      DropPrefix("ip:", ip, ip');
    }
  }

  lemma NoneAboutBoth(a: seq<Action>, b: seq<Action>, ip: string)
    requires NoneAbout(a, ip) && NoneAbout(b, ip)
    ensures NoneAbout(a + b, ip)
  {
  }

  lemma {:induction false} LoginActionsAreOwn(own: string, failed: seq<Subject>, ip: string)
    requires own != ip
    ensures NoneAbout(LoginActions(own, failed), ip)
    decreases |failed|
  {
    if failed != [] {
      LoginActionsAreOwn(own, failed[..|failed| - 1], ip);
    }
  }

  lemma ThrottleActionsAreOwn(cfg: Config, gate: Gate, m: Store, now: int, own: string, ip: string)
    requires own != ip
    ensures NoneAbout(ThrottleActions(cfg, gate, m, now, own), ip)
  {
    IdentitiesDiffer(own, ip);
    assert NoneAbout(LimiterActions(gate, m, own), ip);
  }

  /** A request only ever acts on its own address. */
  lemma ActionsAreOwn(cfg: Config, gate: Gate, m: Store, now: int, r: Request, ip: string)
    requires r.ip != ip
    ensures NoneAbout(Actions(cfg, gate, m, now, r), ip)
  {
    IdentitiesDiffer(r.ip, ip);
    if r.Call? {
      var admitted := WafActions(gate.mode, r.ip, r.wafBlocked) + ThrottleActions(cfg, gate, m, now, r.ip);
      ThrottleActionsAreOwn(cfg, gate, m, now, r.ip, ip);
      NoneAboutBoth(WafActions(gate.mode, r.ip, r.wafBlocked), ThrottleActions(cfg, gate, m, now, r.ip), ip);
      LoginActionsAreOwn(r.ip, r.failedLogins, ip);
      NoneAboutBoth(admitted, LoginActions(r.ip, r.failedLogins), ip);
      NoneAboutBoth(admitted + LoginActions(r.ip, r.failedLogins), OutcomeActions(r.ip, r.status, r.route), ip);
    }
  }

  /** A ban in force: it ends at `until`, and its record lives that long. */
  ghost predicate InForce(cfg: Config, m: Store, ip: string, until: int) {
    && ip !in cfg.allowlist
    && BanKey(ip) in m
    && m[BanKey(ip)].value == until <= m[BanKey(ip)].expiresAt
  }

  lemma InForceIsBanned(cfg: Config, m: Store, now: int, ip: string, until: int)
    requires InForce(cfg, m, ip, until) && now < until
    ensures Assessment(cfg, Live(m, now), now, ip).level == Banned
  {
  }

  /** About an address there are only its own requests, all before `until`. */
  predicate OnlyRequestsBefore(evs: seq<EdgeEvent>, ip: string, until: int) {
    forall i :: 0 <= i < |evs| && evs[i].About(ip) ==> evs[i].Served? && evs[i].at < until
  }

  /**
   * While an address is banned, no sequence of its own requests (preflights and health probes included)
   * changes anything stored about it, whatever other addresses and the operators do to them meanwhile and after.
   */
  lemma {:induction false} BannedIsFrozen(cfg: Config, gate: Gate, m: Store, evs: seq<EdgeEvent>, ip: string,
                                          until: int, start: int, t: int)
    requires InForce(cfg, m, ip, until)
    requires EdgeInOrder(evs, start, t)
    requires OnlyRequestsBefore(evs, ip, until)
    ensures Own(ip, Live(EdgeRun(cfg, gate, m, evs), t)) == Own(ip, Live(m, t))
    decreases |evs|
  {
    if evs != [] {
      var e, front := evs[|evs| - 1], evs[..|evs| - 1];
      BannedIsFrozen(cfg, gate, m, front, ip, until, start, e.at);
      var before := Live(EdgeRun(cfg, gate, m, front), e.at);
      OwnDecidesAssessment(cfg, before, Live(m, e.at), e.at, ip);
      if e.About(ip) {
        InForceIsBanned(cfg, m, e.at, ip, until);
      }
      FrozenStep(cfg, gate, before, e, ip);
      OwnLater(ip, EdgeStep(cfg, gate, before, e), Live(m, e.at), t);
      LiveLater(m, e.at, t);
    }
  }

  lemma FrozenStep(cfg: Config, gate: Gate, m: Store, e: EdgeEvent, ip: string)
    requires e.About(ip) ==> e.Served? && Assessment(cfg, m, e.at, ip).level == Banned
    ensures Own(ip, EdgeStep(cfg, gate, m, e)) == Own(ip, m)
  {
    if e.Operated? {
      StepIsLocal(cfg, m, e.at, e.act, ip);
    } else if e.request.ip != ip {
      ActionsAreOwn(cfg, gate, m, e.at, e.request, ip);
      PerformIsLocal(cfg, m, e.at, Actions(cfg, gate, m, e.at, e.request), ip);
    } else if e.request.HealthProbe? {
      PerformIsLocal(cfg, m, e.at, [Ask(ClientIdentity(ip), gate.limit)], ip);
    }
  }

  /** From the record that bans to the end of the ban, through any requests in between, the address stays banned to that end. */
  lemma BannedUntilTheEnd(cfg: Config, gate: Gate, m: Store, now: int, ip: string, signal: Signal, subject: Option<Subject>,
                          evs: seq<EdgeEvent>, t: int)
    requires ip !in cfg.allowlist
    requires ValueOr0(Scored(cfg, m, now, ip, signal, subject), ScoreKey(ip)) >= cfg.policy.banAt
    requires EdgeInOrder(evs, now, t)
    requires var until := now + 1000 * BanLength(cfg.policy, ValueOr0(m, OffencesKey(ip)) + 1);
             t < until && OnlyRequestsBefore(evs, ip, until)
    ensures var until := now + 1000 * BanLength(cfg.policy, ValueOr0(m, OffencesKey(ip)) + 1);
            var s := Assessment(cfg, Live(EdgeRun(cfg, gate, Recorded(cfg, m, now, ip, signal, subject), evs), t), t, ip);
            s.level == Banned && s.banSecondsRemaining == CeilSeconds(until - t)
  {
    var banned := Recorded(cfg, m, now, ip, signal, subject);
    BanFollowsOffences(cfg, m, now, ip, signal, subject);
    BannedIsFrozen(cfg, gate, banned, evs, ip, banned[BanKey(ip)].value, now, t);
    OwnDecidesAssessment(cfg, Live(EdgeRun(cfg, gate, banned, evs), t), Live(banned, t), t, ip);
  }

  /** And what the end of it leaves. */
  lemma BanRunsItsCourse(cfg: Config, gate: Gate, m: Store, now: int, ip: string, signal: Signal, subject: Option<Subject>,
                         evs: seq<EdgeEvent>, t: int)
    requires Sound(cfg, m, now) && m == Live(m, now) && ip !in cfg.allowlist
    requires ValueOr0(Scored(cfg, m, now, ip, signal, subject), ScoreKey(ip)) >= cfg.policy.banAt
    requires EdgeInOrder(evs, now, t)
    requires var until := now + 1000 * BanLength(cfg.policy, ValueOr0(m, OffencesKey(ip)) + 1);
             until <= t && OnlyRequestsBefore(evs, ip, until)
    ensures var banned := Recorded(cfg, m, now, ip, signal, subject);
            var s := Assessment(cfg, Live(EdgeRun(cfg, gate, banned, evs), t), t, ip);
            var expiry := Rearmed(cfg.driver, m, now, ScoreKey(ip), cfg.policy.windowSeconds);
            && s.level != Banned
            && expiry <= now + 1000 * cfg.policy.windowSeconds
            && (s.score == 0 <==> t > expiry)
            && (s.score == 0 && cfg.policy.throttleAt > 0 ==> s.level == Normal)
            && (s.score != 0 && cfg.policy.throttleAt <= cfg.policy.banAt ==> s.level == Throttled && s.score >= cfg.policy.banAt)
  {
    var banned := Recorded(cfg, m, now, ip, signal, subject);
    BanFollowsOffences(cfg, m, now, ip, signal, subject);
    var until := banned[BanKey(ip)].value;
    BannedIsFrozen(cfg, gate, banned, evs, ip, until, now, t);
    OwnDecidesAssessment(cfg, Live(EdgeRun(cfg, gate, banned, evs), t), Live(banned, t), t, ip);
    StepKeepsSound(cfg, m, now, Report(ip, signal, subject));
    assert SoundFor(cfg, banned, now, ip);
  }

  /** With a window no longer than the first ban, nothing is left of the score once the ban is over. */
  lemma LapsedBanLeavesNoScore(cfg: Config, gate: Gate, m: Store, now: int, ip: string, signal: Signal,
                               subject: Option<Subject>, evs: seq<EdgeEvent>, t: int)
    requires Sound(cfg, m, now) && m == Live(m, now) && ip !in cfg.allowlist
    requires cfg.policy.windowSeconds <= cfg.policy.banSeconds <= cfg.policy.maxBanSeconds && cfg.policy.throttleAt > 0
    requires ValueOr0(Scored(cfg, m, now, ip, signal, subject), ScoreKey(ip)) >= cfg.policy.banAt
    requires EdgeInOrder(evs, now, t)
    requires var until := now + 1000 * BanLength(cfg.policy, ValueOr0(m, OffencesKey(ip)) + 1);
             until < t && OnlyRequestsBefore(evs, ip, until)
    ensures var s := Assessment(cfg, Live(EdgeRun(cfg, gate, Recorded(cfg, m, now, ip, signal, subject), evs), t), t, ip);
            s.level == Normal && s.score == 0
  {
    BanRunsItsCourse(cfg, gate, m, now, ip, signal, subject, evs, t);
    assert SoundFor(cfg, m, now, ip);
    BanLengthMonotone(cfg.policy, 1, ValueOr0(m, OffencesKey(ip)) + 1);
    BanDoubles(cfg.policy, 1);
  }

  /**
   * At the very instant the ban ends, an entry that expires then is still readable: the score is gone if and only
   * if its expiry is earlier, which in the memory driver means a window strictly shorter than the ban.
   */
  lemma ScoreAtTheInstantOfLapse(cfg: Config, gate: Gate, m: Store, now: int, ip: string, signal: Signal,
                                 subject: Option<Subject>, evs: seq<EdgeEvent>)
    requires Sound(cfg, m, now) && m == Live(m, now) && ip !in cfg.allowlist
    requires ValueOr0(Scored(cfg, m, now, ip, signal, subject), ScoreKey(ip)) >= cfg.policy.banAt
    requires var until := now + 1000 * BanLength(cfg.policy, ValueOr0(m, OffencesKey(ip)) + 1);
             EdgeInOrder(evs, now, until) && OnlyRequestsBefore(evs, ip, until)
    ensures var length := BanLength(cfg.policy, ValueOr0(m, OffencesKey(ip)) + 1);
            var until := now + 1000 * length;
            var s := Assessment(cfg, Live(EdgeRun(cfg, gate, Recorded(cfg, m, now, ip, signal, subject), evs), until), until, ip);
            && (s.score == 0 <==> Rearmed(cfg.driver, m, now, ScoreKey(ip), cfg.policy.windowSeconds) < until)
            && (cfg.driver == Memory ==> (s.score == 0 <==> cfg.policy.windowSeconds < length))
  {
    BanRunsItsCourse(cfg, gate, m, now, ip, signal, subject, evs, now + 1000 * BanLength(cfg.policy, ValueOr0(m, OffencesKey(ip)) + 1));
  }

  /** So under the default policy a first ban hands over to a throttle for one instant. */
  lemma FirstDefaultBanEndsThrottled(m: Store, now: int, ip: string, signal: Signal, subject: Option<Subject>)
    requires var cfg := Config(Memory, DEFAULT_POLICY, {});
             && Sound(cfg, m, now) && m == Live(m, now) && OffencesKey(ip) !in m
             && ValueOr0(Scored(cfg, m, now, ip, signal, subject), ScoreKey(ip)) >= 120
    ensures var cfg := Config(Memory, DEFAULT_POLICY, {});
            var banned := Recorded(cfg, m, now, ip, signal, subject);
            && Assessment(cfg, Live(banned, now + 900_000), now + 900_000, ip).level == Throttled
            && Assessment(cfg, Live(banned, now + 900_001), now + 900_001, ip).level == Normal
  {
    var cfg := Config(Memory, DEFAULT_POLICY, {});
    BanDoubles(DEFAULT_POLICY, 1);
    ScoreAtTheInstantOfLapse(cfg, Gate(Off, DEFAULT_LIMIT), m, now, ip, signal, subject, []);
    BanRunsItsCourse(cfg, Gate(Off, DEFAULT_LIMIT), m, now, ip, signal, subject, [], now + 900_000);
    LapsedBanLeavesNoScore(cfg, Gate(Off, DEFAULT_LIMIT), m, now, ip, signal, subject, [], now + 900_001);
  }
}
