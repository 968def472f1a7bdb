/** An address that gives no signal but the limiter's refusals: what they amount to, and whether they can ban. */
module LimiterLaws {
  import opened Wrappers
  import opened Powers
  import opened TtlCache
  import opened Digest
  import opened Threat
  import opened RateLimit
  import opened ThreatLaws
  import opened BanLaws
  import opened ScoreLaws
  import opened Edge
  import opened EdgeLaws

  /**
   * Of this address there are only requests that give no signal of their own: the firewall does not object, no
   * login fails, and the status, if they are let through, is none that is scored.
   */
  predicate Quiet(gate: Gate, e: EdgeEvent, ip: string) {
    e.About(ip) ==>
      && e.Served?
      && (e.request.Call? ==>
            && (gate.mode == Off || !e.request.wafBlocked)
            && e.request.failedLogins == []
            && e.request.status < 500 && e.request.status !in {401, 403, 404})
  }

  ghost predicate AllQuiet(gate: Gate, evs: seq<EdgeEvent>, ip: string) {
    forall i :: 0 <= i < |evs| ==> Quiet(gate, evs[i], ip)
  }

  /** The request is refused by the limiter: not by the ban, nor by the exhausted budget before it. */
  predicate RefusedByLimiter(cfg: Config, gate: Gate, m: Store, e: EdgeEvent, ip: string) {
    && e.Served? && e.request.Call? && e.request.ip == ip && !LimiterAllows(gate, m, ip)
    && Assessment(cfg, m, e.at, ip).level != Banned && !OverBudget(cfg, m, e.at, ip)
  }

  function LimiterRefusals(cfg: Config, gate: Gate, m: Store, evs: seq<EdgeEvent>, ip: string): nat
    decreases |evs|
  {
    if evs == [] then 0
    else
      var e, front := evs[|evs| - 1], evs[..|evs| - 1];
      LimiterRefusals(cfg, gate, m, front, ip) + (if RefusedByLimiter(cfg, gate, Found(cfg, gate, m, front, e), e, ip) then 1 else 0)
  }

  // ---- The refusals are the score ----

  lemma {:induction false} ReportsAppend(front: seq<Event>, more: seq<Event>, ip: string, signal: Signal)
    ensures Reports(front + more, ip, signal) == Reports(front, ip, signal) + Reports(more, ip, signal)
    decreases |more|
  {
    var all := front + more;
    if more == [] {
      assert all == front;
    } else {
      assert all[..|all| - 1] == front + more[..|more| - 1];
      ReportsAppend(front, more[..|more| - 1], ip, signal);
    }
  }

  predicate Reported(act: Action, ip: string, signal: Signal) { act.Report? && act.ip == ip && act.signal == signal }

  lemma {:induction false} NoReports(evs: seq<Event>, ip: string, signal: Signal)
    requires forall i :: 0 <= i < |evs| ==> !Reported(evs[i].act, ip, signal)
    ensures Reports(evs, ip, signal) == 0
    decreases |evs|
  {
    if evs != [] {
      NoReports(evs[..|evs| - 1], ip, signal);
    }
  }

  /** One report at the end of actions that are none. */
  lemma OneReport(at: int, acts: seq<Action>, last: Action, ip: string, signal: Signal)
    requires forall i :: 0 <= i < |acts| ==> !Reported(acts[i], ip, signal)
    ensures Reports(Stamped(at, acts + [last]), ip, signal) == if Reported(last, ip, signal) then 1 else 0
  {
    var all := Stamped(at, acts + [last]);
    assert all[..|all| - 1] == Stamped(at, acts);
    NoReports(Stamped(at, acts), ip, signal);
  }

  /** Behind the firewall a call spends, is counted, and is refused; at most. */
  lemma ThrottleReports(cfg: Config, gate: Gate, m: Store, at: int, ip: string)
    ensures var acts := ThrottleActions(cfg, gate, m, at, ip);
            && (forall i :: 0 <= i < |acts| && acts[i].About(ip) ==> SpendsOrRefused(acts[i]))
            && Reports(Stamped(at, acts), ip, RateLimited) == if OverBudget(cfg, m, at, ip) || LimiterAllows(gate, m, ip) then 0 else 1
  {
    var acts := ThrottleActions(cfg, gate, m, at, ip);
    if OverBudget(cfg, m, at, ip) || LimiterAllows(gate, m, ip) {
      NoReports(Stamped(at, acts), ip, RateLimited);
    } else {
      assert acts == acts[..|acts| - 1] + [Report(ip, RateLimited, None)];
      OneReport(at, acts[..|acts| - 1], Report(ip, RateLimited, None), ip, RateLimited);
    }
  }

  lemma QuietActions(cfg: Config, gate: Gate, m: Store, e: EdgeEvent, ip: string)
    requires Quiet(gate, e, ip) && e.About(ip) && e.request.Call? && Assessment(cfg, m, e.at, ip).level != Banned
    ensures ActionsOf(cfg, gate, m, e) == ThrottleActions(cfg, gate, m, e.at, ip)
  {
    assert WafActions(gate.mode, ip, e.request.wafBlocked) == [];
    assert LoginActions(ip, e.request.failedLogins) == [] && OutcomeActions(ip, e.request.status, e.request.route) == [];
  }

  lemma QuietReports(cfg: Config, gate: Gate, m: Store, e: EdgeEvent, ip: string)
    requires Quiet(gate, e, ip)
    ensures var acts := ActionsOf(cfg, gate, m, e);
            && (forall i :: 0 <= i < |acts| && acts[i].About(ip) ==> SpendsOrRefused(acts[i]))
            && Reports(Stamped(e.at, acts), ip, RateLimited) == if RefusedByLimiter(cfg, gate, m, e, ip) then 1 else 0
  {
    if e.About(ip) && e.request.Call? && Assessment(cfg, m, e.at, ip).level != Banned {
      QuietActions(cfg, gate, m, e, ip);
      ThrottleReports(cfg, gate, m, e.at, ip);
    } else {
      if !e.About(ip) && e.Served? {
        ActionsAreOwn(cfg, gate, m, e.at, e.request, ip);
      }
      NoReports(Stamped(e.at, ActionsOf(cfg, gate, m, e)), ip, RateLimited);
    }
  }

  lemma {:induction false} QuietTrace(cfg: Config, gate: Gate, m: Store, evs: seq<EdgeEvent>, ip: string)
    requires AllQuiet(gate, evs, ip)
    ensures var trace := Trace(cfg, gate, m, evs);
            && (forall i :: 0 <= i < |trace| && trace[i].act.About(ip) ==> SpendsOrRefused(trace[i].act))
            && Refusals(trace, ip) == LimiterRefusals(cfg, gate, m, evs, ip)
    decreases |evs|
  {
    if evs != [] {
      var e, front := evs[|evs| - 1], evs[..|evs| - 1];
      QuietTrace(cfg, gate, m, front, ip);
      var before := Found(cfg, gate, m, front, e);
      QuietReports(cfg, gate, before, e, ip);
      ReportsAppend(Trace(cfg, gate, m, front), Stamped(e.at, ActionsOf(cfg, gate, before, e)), ip, RateLimited);
    }
  }

  /** Nothing is held against the address. */
  ghost predicate Unmarked(m: Store, ip: string) {
    ScoreKey(ip) !in m && BanKey(ip) !in m && forall d :: AccountKey(ip, d) !in m && PathKey(ip, d) !in m
  }

  /** Within one window of the default policy. */
  ghost predicate InDefaultWindow(cfg: Config, gate: Gate, m: Store, evs: seq<EdgeEvent>, ip: string, start: int, t: int) {
    && cfg.policy == DEFAULT_POLICY && ip !in cfg.allowlist && Unmarked(m, ip)
    && EdgeInOrder(evs, start, t) && t < start + 900_000 && AllQuiet(gate, evs, ip)
  }

  lemma RefusalsDecideStanding(cfg: Config, gate: Gate, m: Store, evs: seq<EdgeEvent>, ip: string, start: int, t: int)
    requires InDefaultWindow(cfg, gate, m, evs, ip, start, t)
    ensures var n, s := LimiterRefusals(cfg, gate, m, evs, ip), Assessment(cfg, Live(EdgeRun(cfg, gate, m, evs), t), t, ip);
            s.score == n && (s.level == Banned <==> n >= 120)
  {
    var trace := Trace(cfg, gate, m, evs);
    EdgeRunIsRun(cfg, gate, m, evs, start, t);
    TraceInOrder(cfg, gate, m, evs, start, t);
    QuietTrace(cfg, gate, m, evs, ip);
    forall i | 0 <= i < |trace|
      ensures trace[i].act != Lift(ip) && trace[i].act != Wipe(ip)
    {
      assert trace[i].act.About(ip) ==> SpendsOrRefused(trace[i].act);
    }
    RefusalsBanAtExactly120(cfg, m, trace, ip, start, t);
    ScoreIsSumOfWeights(cfg, m, trace, ip, start, t);
    RefusalsScore(trace, ip);
  }

  lemma {:induction false} AtMost120(cfg: Config, gate: Gate, m: Store, evs: seq<EdgeEvent>, ip: string, start: int, t: int)
    requires InDefaultWindow(cfg, gate, m, evs, ip, start, t)
    ensures LimiterRefusals(cfg, gate, m, evs, ip) <= 120
    decreases |evs|
  {
    if evs != [] {
      var e, front := evs[|evs| - 1], evs[..|evs| - 1];
      AtMost120(cfg, gate, m, front, ip, start, e.at);
      RefusalsDecideStanding(cfg, gate, m, front, ip, start, e.at);
    }
  }

  /**
   * Through the whole pipeline, with what the limiter admits, the throttle budget and all: an address that gives no
   * other signal is banned, within one window of the default policy, exactly when the limiter has refused it 120 times.
   */
  lemma LimiterBansAtExactly120(cfg: Config, gate: Gate, m: Store, evs: seq<EdgeEvent>, ip: string, start: int, t: int)
    requires InDefaultWindow(cfg, gate, m, evs, ip, start, t)
    ensures Assessment(cfg, Live(EdgeRun(cfg, gate, m, evs), t), t, ip).level == Banned
            <==> LimiterRefusals(cfg, gate, m, evs, ip) == 120
  {
    RefusalsDecideStanding(cfg, gate, m, evs, ip, start, t);
    AtMost120(cfg, gate, m, evs, ip, start, t);
  }

  // ---- The four counters of such an address ----

  datatype Marks = Marks(score: Option<Entry>, ban: Option<Entry>, budget: Option<Entry>, asked: Option<Entry>)

  const NO_MARKS := Marks(None, None, None, None)

  function At(m: Store, key: string): Option<Entry> { if key in m then Some(m[key]) else None }

  function MarksOf(m: Store, ip: string): Marks {
    Marks(At(m, ScoreKey(ip)), At(m, BanKey(ip)), At(m, BudgetKey(ip)), At(m, RateKey(ClientIdentity(ip))))
  }

  function Count(e: Option<Entry>): int { if e.Some? then e.value.value else 0 }

  function Kept(e: Option<Entry>, t: int): Option<Entry> { if e.Some? && e.value.expiresAt < t then None else e }

  function Later(k: Marks, t: int): Marks { Marks(Kept(k.score, t), Kept(k.ban, t), Kept(k.budget, t), Kept(k.asked, t)) }

  function Bumped(d: Driver, e: Option<Entry>, now: int, ttl: nat): Option<Entry> {
    Some(Entry(Count(e) + 1, if d.Redis? && e.Some? then e.value.expiresAt else now + ttl * 1000))
  }

  function AfterSpend(cfg: Config, k: Marks, now: int): Marks { k.(budget := Bumped(cfg.driver, k.budget, now, BUDGET_SECONDS)) }

  function AfterAsk(cfg: Config, gate: Gate, k: Marks, now: int): Marks {
    k.(asked := Bumped(cfg.driver, k.asked, now, TtlSeconds(gate.limit.windowMs)))
  }

  function AfterRefusal(cfg: Config, k: Marks, now: int): Marks {
    k.(score := Bumped(cfg.driver, k.score, now, cfg.policy.windowSeconds))
  }

  /** What a quiet call does to the counters while its address is not banned, and not about to be. */
  function AfterCall(cfg: Config, gate: Gate, k: Marks, now: int): Marks {
    var throttled := Count(k.score) >= cfg.policy.throttleAt;
    var spent := if throttled then AfterSpend(cfg, k, now) else k;
    if throttled && Count(spent.budget) > cfg.policy.throttledBudget then spent
    else
      var asked := AfterAsk(cfg, gate, spent, now);
      if Count(asked.asked) <= gate.limit.max then asked else AfterRefusal(cfg, asked, now)
  }

  lemma MarksLater(m: Store, ip: string, t: int)
    ensures MarksOf(Live(m, t), ip) == Later(MarksOf(m, ip), t)
  {
  }

  lemma KeysApart(ip: string)
    ensures FourKeys([ScoreKey(ip), BanKey(ip), BudgetKey(ip), RateKey(ClientIdentity(ip))])
    ensures OffencesKey(ip) !in {ScoreKey(ip), BanKey(ip), BudgetKey(ip), RateKey(ClientIdentity(ip))}
  {
    FamiliesDiffer(ip, ip);
    LimiterKeysApart(ip, ScoreKey(ip), ClientIdentity(ip));
    LimiterKeysApart(ip, BanKey(ip), ClientIdentity(ip));
    LimiterKeysApart(ip, BudgetKey(ip), ClientIdentity(ip));
    LimiterKeysApart(ip, OffencesKey(ip), ClientIdentity(ip));
  }

  predicate FourKeys(keys: seq<string>) {
    |keys| == 4 && forall i, j :: 0 <= i < j < 4 ==> keys[i] != keys[j]
  }

  lemma MarksAfterSpend(cfg: Config, m: Store, now: int, ip: string)
    ensures MarksOf(Step(cfg, m, now, Spend(ip)), ip) == AfterSpend(cfg, MarksOf(m, ip), now)
  {
    KeysApart(ip);
  }

  lemma MarksAfterAsk(cfg: Config, gate: Gate, m: Store, now: int, ip: string)
    ensures MarksOf(Step(cfg, m, now, Ask(ClientIdentity(ip), gate.limit)), ip) == AfterAsk(cfg, gate, MarksOf(m, ip), now)
  {
    KeysApart(ip);
  }

  lemma MarksAfterRefusal(cfg: Config, m: Store, now: int, ip: string)
    requires ip !in cfg.allowlist && Count(MarksOf(m, ip).score) + 1 < cfg.policy.banAt
    ensures MarksOf(Step(cfg, m, now, Report(ip, RateLimited, None)), ip) == AfterRefusal(cfg, MarksOf(m, ip), now)
  {
    KeysApart(ip);
  }

  /** A quiet call of an address that is not banned moves its counters so, unless the refusal bans. */
  lemma MarksAfterCall(cfg: Config, gate: Gate, m: Store, e: EdgeEvent, ip: string)
    requires Quiet(gate, e, ip) && e.About(ip) && e.request.Call? && ip !in cfg.allowlist
    requires MarksOf(m, ip).ban.None? && Count(AfterCall(cfg, gate, MarksOf(m, ip), e.at).score) < cfg.policy.banAt
    ensures MarksOf(EdgeStep(cfg, gate, m, e), ip) == AfterCall(cfg, gate, MarksOf(m, ip), e.at)
  {
    var acts := ThrottleActions(cfg, gate, m, e.at, ip);
    QuietActions(cfg, gate, m, e, ip);
    EdgeStepPerforms(cfg, gate, m, e);
    ThrottleMarks(cfg, gate, m, e.at, ip);
  }

  lemma ThrottleMarks(cfg: Config, gate: Gate, m: Store, now: int, ip: string)
    requires ip !in cfg.allowlist
    requires MarksOf(m, ip).ban.None? && Count(AfterCall(cfg, gate, MarksOf(m, ip), now).score) < cfg.policy.banAt
    ensures MarksOf(Perform(cfg, m, now, ThrottleActions(cfg, gate, m, now, ip)), ip) == AfterCall(cfg, gate, MarksOf(m, ip), now)
  {
    var spend: seq<Action> := if Assessment(cfg, m, now, ip).level == Throttled then [Spend(ip)] else [];
    var spent := Perform(cfg, m, now, spend);
    if Assessment(cfg, m, now, ip).level == Throttled {
      PerformOne(cfg, m, now, [], Spend(ip));
      assert [] + [Spend(ip)] == spend;
      MarksAfterSpend(cfg, m, now, ip);
    }
    if !OverBudget(cfg, m, now, ip) {
      LimiterMarks(cfg, gate, m, now, ip, spend);
    }
  }

  lemma LimiterMarks(cfg: Config, gate: Gate, m: Store, now: int, ip: string, acts: seq<Action>)
    requires ip !in cfg.allowlist
    requires var k := MarksOf(Perform(cfg, m, now, acts), ip);
             k.asked == MarksOf(m, ip).asked && (LimiterAllows(gate, m, ip) || Count(k.score) + 1 < cfg.policy.banAt)
    ensures var k := AfterAsk(cfg, gate, MarksOf(Perform(cfg, m, now, acts), ip), now);
            MarksOf(Perform(cfg, m, now, acts + LimiterActions(gate, m, ip)), ip)
            == if LimiterAllows(gate, m, ip) then k else AfterRefusal(cfg, k, now)
  {
    var ask, refusal := Ask(ClientIdentity(ip), gate.limit), Report(ip, RateLimited, None);
    PerformOne(cfg, m, now, acts, ask);
    MarksAfterAsk(cfg, gate, Perform(cfg, m, now, acts), now, ip);
    if !LimiterAllows(gate, m, ip) {
      assert acts + LimiterActions(gate, m, ip) == acts + [ask] + [refusal];
      PerformOne(cfg, m, now, acts + [ask], refusal);
      MarksAfterRefusal(cfg, Perform(cfg, m, now, acts + [ask]), now, ip);
    }
  }

  lemma MarksAfterProbe(cfg: Config, gate: Gate, m: Store, at: int, ip: string, status: nat)
    ensures MarksOf(EdgeStep(cfg, gate, m, Served(at, HealthProbe(ip, status))), ip) == AfterAsk(cfg, gate, MarksOf(m, ip), at)
  {
    var ask := Ask(ClientIdentity(ip), gate.limit);
    PerformOne(cfg, m, at, [], ask);
    assert [] + [ask] == [ask];
    MarksAfterAsk(cfg, gate, m, at, ip);
  }

  lemma ForeignStep(cfg: Config, m: Store, now: int, act: Action, ip: string)
    requires !act.About(ip) && !Counts(act, ip)
    ensures MarksOf(Step(cfg, m, now, act), ip) == MarksOf(m, ip)
  {
    var m' := Step(cfg, m, now, act);
    StepIsLocal(cfg, m, now, act, ip);
    forall k | k in {ScoreKey(ip), BanKey(ip), BudgetKey(ip)}
      ensures At(m', k) == At(m, k)
    {
      assert k in m ==> k in Own(ip, m) && Own(ip, m)[k] == m[k];
      assert k in m' ==> k in Own(ip, m') && Own(ip, m')[k] == m'[k];
    }
    ForeignStepKeepsLimiter(cfg, m, now, act, ClientIdentity(ip));
  }

  lemma ForeignStepKeepsLimiter(cfg: Config, m: Store, now: int, act: Action, identity: string)
    requires !(act.Ask? && act.identity == identity)
    ensures At(Step(cfg, m, now, act), RateKey(identity)) == At(m, RateKey(identity))
  {
    LimiterKeysApart("", BANNED_TOTAL, identity);
    LimiterKeysApart("", BLOCKED_TOTAL, identity);
    if act.Ask? {
      if RateKey(act.identity) == RateKey(identity) {
        DropPrefix("rl:", act.identity, identity);
      }
    } else if !act.NoteBlock? {
      LimiterKeysApart(act.ip, ScoreKey(act.ip), identity);
      LimiterKeysApart(act.ip, BanKey(act.ip), identity);
      LimiterKeysApart(act.ip, OffencesKey(act.ip), identity);
      LimiterKeysApart(act.ip, BudgetKey(act.ip), identity);
      if act.Report? && SeenKey(act.ip, act.signal, act.subject).Some? {
        DigestHasNoColon(act.subject.value);
        LimiterKeysApart(act.ip, SeenKey(act.ip, act.signal, act.subject).value, identity);
      }
    }
  }

  lemma {:induction false} ForeignActions(cfg: Config, m: Store, now: int, acts: seq<Action>, ip: string)
    requires NoneAbout(acts, ip)
    ensures MarksOf(Perform(cfg, m, now, acts), ip) == MarksOf(m, ip)
    decreases |acts|
  {
    if acts != [] {
      ForeignActions(cfg, m, now, acts[..|acts| - 1], ip);
      ForeignStep(cfg, Perform(cfg, m, now, acts[..|acts| - 1]), now, acts[|acts| - 1], ip);
    }
  }

  /** Events about other addresses leave the counters alone. */
  lemma ForeignEvent(cfg: Config, gate: Gate, m: Store, e: EdgeEvent, ip: string)
    requires !e.About(ip)
    ensures MarksOf(EdgeStep(cfg, gate, m, e), ip) == MarksOf(m, ip)
  {
    match e
    case Served(at, r) =>
      ActionsAreOwn(cfg, gate, m, at, r, ip);
      ForeignActions(cfg, m, at, Actions(cfg, gate, m, at, r), ip);
    case Operated(at, act) => ForeignStep(cfg, m, at, act, ip);
  }

  // ---- Without probes the refusals cannot ban ----

  /** Limits under which the throttle budget runs dry before the limiter's count can fill again. */
  predicate Tame(cfg: Config, gate: Gate) {
    && 0 < cfg.policy.throttleAt
    && cfg.policy.throttleAt + 2 * cfg.policy.throttledBudget < cfg.policy.banAt
    && 2 * cfg.policy.throttledBudget <= gate.limit.max
    && TtlSeconds(gate.limit.windowMs) <= BUDGET_SECONDS
  }

  /** The limiter's count does not outlast the budget's. */
  predicate Covered(k: Marks)
    requires k.asked.Some?
  {
    k.budget.Some? ==> k.asked.value.expiresAt <= k.budget.value.expiresAt
  }

  /**
   * At most `x` requests have passed the throttle since the limiter's count began: one budget's worth, or, where
   * increments do not re-arm an expiry and an earlier budget may still be running, two.
   */
  predicate Within(cfg: Config, once: bool, k: Marks, x: int)
    requires k.asked.Some?
  {
    var budget := cfg.policy.throttledBudget;
    var spent := Min(Count(k.budget), budget);
    || (x <= spent && (once || (cfg.driver.Memory? && x > 0) ==> Covered(k)))
    || (!once && cfg.driver.Redis? && x <= budget + spent && Covered(k))
  }

  function Allowance(cfg: Config, once: bool): nat {
    if once || cfg.driver.Memory? then cfg.policy.throttledBudget else 2 * cfg.policy.throttledBudget
  }

  /**
   * What a quiet address without probes keeps true at `now`: its score stays within the allowance above the
   * threshold. `once` says that no score lapses before `end`.
   */
  predicate Calm(cfg: Config, once: bool, end: int, k: Marks, now: int) {
    var p, score := cfg.policy, Count(k.score);
    && k.ban.None?
    && (k.score.Some? ==> score > 0 && (once ==> k.score.value.expiresAt >= end))
    && (k.budget.Some? ==> Count(k.budget) > 0)
    && (k.asked.Some? ==> Count(k.asked) > 0 && k.asked.value.expiresAt <= now + 1000 * BUDGET_SECONDS)
    && (score < p.throttleAt ==> once ==> k.budget.None?)
    && (score >= p.throttleAt ==>
          && score <= p.throttleAt + Allowance(cfg, once)
          && (k.asked.Some? ==> Within(cfg, once, k, score - p.throttleAt) || Within(cfg, false, k, Count(k.asked))))
  }

  lemma CalmLater(cfg: Config, once: bool, end: int, k: Marks, now: int, t: int)
    requires Calm(cfg, once, end, k, now) && now <= t && 0 < cfg.policy.throttleAt && (once ==> t <= end)
    ensures Calm(cfg, once, end, Later(k, t), t)
  {
  }

  lemma CalmCall(cfg: Config, gate: Gate, once: bool, end: int, k: Marks, now: int)
    requires Tame(cfg, gate) && Calm(cfg, once, end, k, now) && (once ==> end <= now + 1000 * cfg.policy.windowSeconds)
    ensures Calm(cfg, once, end, AfterCall(cfg, gate, k, now), now)
    ensures Count(AfterCall(cfg, gate, k, now).score) < cfg.policy.banAt
  {
  }

  /** Quiet, and no liveness probe. */
  predicate PlainlyQuiet(gate: Gate, e: EdgeEvent, ip: string) {
    Quiet(gate, e, ip) && (e.About(ip) ==> !e.request.HealthProbe?)
  }

  lemma CalmEvent(cfg: Config, gate: Gate, once: bool, end: int, m: Store, e: EdgeEvent, ip: string)
    requires Tame(cfg, gate) && ip !in cfg.allowlist && PlainlyQuiet(gate, e, ip)
    requires Calm(cfg, once, end, MarksOf(m, ip), e.at) && (once ==> end <= e.at + 1000 * cfg.policy.windowSeconds)
    ensures Calm(cfg, once, end, MarksOf(EdgeStep(cfg, gate, m, e), ip), e.at)
  {
    if !e.About(ip) {
      ForeignEvent(cfg, gate, m, e, ip);
    } else if e.request.Call? {
      CalmCall(cfg, gate, once, end, MarksOf(m, ip), e.at);
      MarksAfterCall(cfg, gate, m, e, ip);
    }
  }

  lemma {:induction false} CalmRun(cfg: Config, gate: Gate, once: bool, end: int, m: Store, evs: seq<EdgeEvent>, ip: string, start: int, t: int)
    requires Tame(cfg, gate) && ip !in cfg.allowlist && MarksOf(m, ip) == NO_MARKS
    requires EdgeInOrder(evs, start, t) && forall i :: 0 <= i < |evs| ==> PlainlyQuiet(gate, evs[i], ip)
    requires once ==> t <= end <= start + 1000 * cfg.policy.windowSeconds
    ensures Calm(cfg, once, end, MarksOf(Live(EdgeRun(cfg, gate, m, evs), t), ip), t)
    decreases |evs|
  {
    MarksLater(EdgeRun(cfg, gate, m, evs), ip, t);
    if evs != [] {
      var e, front := evs[|evs| - 1], evs[..|evs| - 1];
      CalmRun(cfg, gate, once, end, m, front, ip, start, e.at);
      CalmEvent(cfg, gate, once, end, Live(EdgeRun(cfg, gate, m, front), e.at), e, ip);
      CalmLater(cfg, once, end, MarksOf(EdgeRun(cfg, gate, m, evs), ip), e.at, t);
    }
  }

  /**
   * Without liveness probes the refusals of the limiter never ban, in a run of any length: the score stays within
   * one throttle budget of the threshold, or two where an increment does not re-arm its expiry; within one window
   * it is one in any case.
   */
  lemma RefusalsAloneNeverBan(cfg: Config, gate: Gate, m: Store, evs: seq<EdgeEvent>, ip: string, start: int, t: int)
    requires Tame(cfg, gate) && MarksOf(m, ip) == NO_MARKS
    requires EdgeInOrder(evs, start, t) && forall i :: 0 <= i < |evs| ==> PlainlyQuiet(gate, evs[i], ip)
    ensures var p, s := cfg.policy, Assessment(cfg, Live(EdgeRun(cfg, gate, m, evs), t), t, ip);
            && s.level != Banned
            && s.score <= p.throttleAt + (if cfg.driver.Memory? then p.throttledBudget else 2 * p.throttledBudget)
            && (t <= start + 1000 * p.windowSeconds ==> s.score <= p.throttleAt + p.throttledBudget)
  {
    if ip !in cfg.allowlist {
      CalmRun(cfg, gate, false, t, m, evs, ip, start, t);
      if t <= start + 1000 * cfg.policy.windowSeconds {
        CalmRun(cfg, gate, true, t, m, evs, ip, start, t);
      }
    }
  }

  /** So by default there are at most 60 refusals in a window. */
  lemma AtMost60WithoutProbes(cfg: Config, gate: Gate, m: Store, evs: seq<EdgeEvent>, ip: string, start: int, t: int)
    requires InDefaultWindow(cfg, gate, m, evs, ip, start, t) && gate.limit == DEFAULT_LIMIT
    requires MarksOf(m, ip) == NO_MARKS && forall i :: 0 <= i < |evs| ==> PlainlyQuiet(gate, evs[i], ip)
    ensures LimiterRefusals(cfg, gate, m, evs, ip) <= 60
  {
    RefusalsDecideStanding(cfg, gate, m, evs, ip, start, t);
    RefusalsAloneNeverBan(cfg, gate, m, evs, ip, start, t);
  }

  // ---- With probes they can ----

  /** Probes up to the limiter's maximum, and then calls, all at one instant. */
  function Burst(gate: Gate, ip: string, at: int, calls: nat): seq<EdgeEvent>
    requires gate.limit.max >= 0
  {
    Times(Probe(ip, at), gate.limit.max) + Times(QuietCall(ip, at), calls)
  }

  function Probe(ip: string, at: int): EdgeEvent { Served(at, HealthProbe(ip, 200)) }

  function QuietCall(ip: string, at: int): EdgeEvent { Served(at, Call(ip, false, 200, [], [])) }

  function Times(e: EdgeEvent, n: nat): seq<EdgeEvent> { seq(n, i => e) }

  lemma OnceMore(front: seq<EdgeEvent>, e: EdgeEvent, n: nat)
    ensures front + Times(e, 0) == front
    ensures n > 0 ==> front + Times(e, n) == front + Times(e, n - 1) + [e]
  {
  }

  /** Fifty calls, and then ten at a time a little more than a minute apart. */
  function Siege(gate: Gate, ip: string, start: int, rounds: nat): seq<EdgeEvent>
    requires gate.limit.max >= 0
  {
    if rounds == 0 then Burst(gate, ip, start, 50)
    else Siege(gate, ip, start, rounds - 1) + Burst(gate, ip, start + rounds * 60_001, 10)
  }

  function RunFrom(cfg: Config, gate: Gate, m: Store): seq<EdgeEvent> -> Store { (evs: seq<EdgeEvent>) => EdgeRun(cfg, gate, m, evs) }

  /** The counters an event of this address finds at `at`, after a run. */
  function FoundAt(run: seq<EdgeEvent> -> Store, ip: string, at: int): seq<EdgeEvent> -> Marks {
    (evs: seq<EdgeEvent>) => Later(MarksOf(run(evs), ip), at)
  }

  /** One more probe, or one more call that does not ban, moves the counters as it should. */
  ghost predicate Steps(cfg: Config, gate: Gate, ip: string, at: int, find: seq<EdgeEvent> -> Marks) {
    && (forall front {:trigger find(front + [Probe(ip, at)])} :: find(front + [Probe(ip, at)]) == Later(AfterAsk(cfg, gate, find(front), at), at))
    && (forall front {:trigger find(front + [QuietCall(ip, at)])} ::
          find(front).ban.None? && Count(AfterCall(cfg, gate, find(front), at).score) < cfg.policy.banAt ==>
          find(front + [QuietCall(ip, at)]) == Later(AfterCall(cfg, gate, find(front), at), at))
  }

  lemma OneMoreEvent(cfg: Config, gate: Gate, m: Store, front: seq<EdgeEvent>, e: EdgeEvent, ip: string)
    ensures EdgeRun(cfg, gate, m, front + [e]) == EdgeStep(cfg, gate, Live(EdgeRun(cfg, gate, m, front), e.at), e)
    ensures MarksOf(Live(EdgeRun(cfg, gate, m, front), e.at), ip) == FoundAt(RunFrom(cfg, gate, m), ip, e.at)(front)
  {
    assert (front + [e])[..|front + [e]| - 1] == front;
    MarksLater(EdgeRun(cfg, gate, m, front), ip, e.at);
  }

  lemma OneMoreProbe(cfg: Config, gate: Gate, m: Store, ip: string, at: int, front: seq<EdgeEvent>)
    ensures var find := FoundAt(RunFrom(cfg, gate, m), ip, at);
            find(front + [Probe(ip, at)]) == Later(AfterAsk(cfg, gate, find(front), at), at)
  {
    OneMoreEvent(cfg, gate, m, front, Probe(ip, at), ip);
    MarksAfterProbe(cfg, gate, Live(EdgeRun(cfg, gate, m, front), at), at, ip, 200);
  }

  lemma OneMoreCall(cfg: Config, gate: Gate, m: Store, ip: string, at: int, front: seq<EdgeEvent>)
    requires var k := FoundAt(RunFrom(cfg, gate, m), ip, at)(front);
             ip !in cfg.allowlist && k.ban.None? && Count(AfterCall(cfg, gate, k, at).score) < cfg.policy.banAt
    ensures var find := FoundAt(RunFrom(cfg, gate, m), ip, at);
            find(front + [QuietCall(ip, at)]) == Later(AfterCall(cfg, gate, find(front), at), at)
  {
    OneMoreEvent(cfg, gate, m, front, QuietCall(ip, at), ip);
    MarksAfterCall(cfg, gate, Live(EdgeRun(cfg, gate, m, front), at), QuietCall(ip, at), ip);
  }

  /** A run whose counters step so at any time, from none. */
  ghost predicate StepsAlways(cfg: Config, gate: Gate, ip: string, run: seq<EdgeEvent> -> Store) {
    MarksOf(run([]), ip) == NO_MARKS && forall at :: Steps(cfg, gate, ip, at, FoundAt(run, ip, at))
  }

  lemma RunSteps(cfg: Config, gate: Gate, m: Store, ip: string)
    requires ip !in cfg.allowlist && MarksOf(m, ip) == NO_MARKS
    ensures StepsAlways(cfg, gate, ip, RunFrom(cfg, gate, m))
  {
    forall at: int
      ensures Steps(cfg, gate, ip, at, FoundAt(RunFrom(cfg, gate, m), ip, at))
    {
      var find := FoundAt(RunFrom(cfg, gate, m), ip, at);
      forall front
        ensures find(front + [Probe(ip, at)]) == Later(AfterAsk(cfg, gate, find(front), at), at)
      {
        OneMoreProbe(cfg, gate, m, ip, at, front);
      }
      forall front | find(front).ban.None? && Count(AfterCall(cfg, gate, find(front), at).score) < cfg.policy.banAt
        ensures find(front + [QuietCall(ip, at)]) == Later(AfterCall(cfg, gate, find(front), at), at)
      {
        OneMoreCall(cfg, gate, m, ip, at, front);
      }
    }
  }

  lemma {:induction false} AfterProbes(cfg: Config, gate: Gate, ip: string, at: int, find: seq<EdgeEvent> -> Marks,
                                       front: seq<EdgeEvent>, n: nat)
    requires Steps(cfg, gate, ip, at, find) && Later(find(front), at) == find(front) && Count(find(front).asked) >= 0
    ensures var k, r := find(front), find(front + Times(Probe(ip, at), n));
            r == k.(asked := r.asked) && Count(r.asked) >= n && Later(r, at) == r
  {
    OnceMore(front, Probe(ip, at), n);
    if n > 0 {
      AfterProbes(cfg, gate, ip, at, find, front, n - 1);
    }
  }

  /** An address under siege: this score, until `end`, so much of the budget spent, and a full limiter. */
  predicate Besieged(gate: Gate, k: Marks, at: int, score: nat, spent: nat, end: int) {
    && k.ban.None? && Count(k.asked) >= gate.limit.max && Later(k, at) == k
    && Count(k.score) == score && (k.score.Some? ==> k.score.value.expiresAt >= end)
    && Count(k.budget) == spent && (k.budget.Some? ==> k.budget.value.expiresAt <= at + 60_000)
  }

  lemma BesiegedCall(cfg: Config, gate: Gate, k: Marks, at: int, score: nat, spent: nat, end: int)
    requires cfg.policy == DEFAULT_POLICY && Besieged(gate, k, at, score, spent, end)
    requires score < 119 && (score >= 50 ==> spent < 10) && end <= at + 900_000
    ensures var r := AfterCall(cfg, gate, k, at);
            Later(r, at) == r && Besieged(gate, r, at, score + 1, if score >= 50 then spent + 1 else spent, end)
  {
  }

  lemma {:induction false} AfterCalls(cfg: Config, gate: Gate, ip: string, at: int, find: seq<EdgeEvent> -> Marks,
                                      front: seq<EdgeEvent>, n: nat, score: nat, end: int)
    requires cfg.policy == DEFAULT_POLICY && end <= at + 900_000
    requires Steps(cfg, gate, ip, at, find) && Besieged(gate, find(front), at, score, 0, end)
    requires (score == 0 && n <= 50) || (score >= 50 && n <= 10 && score + n <= 119)
    ensures Besieged(gate, find(front + Times(QuietCall(ip, at), n)), at, score + n, if score >= 50 then n else 0, end)
  {
    OnceMore(front, QuietCall(ip, at), n);
    if n > 0 {
      AfterCalls(cfg, gate, ip, at, find, front, n - 1, score, end);
      BesiegedCall(cfg, gate, find(front + Times(QuietCall(ip, at), n - 1)), at, score + n - 1, if score >= 50 then n - 1 else 0, end);
    }
  }

  /** What a burst needs to find: no ban, no budget spent, and the score so far. */
  predicate Ready(k: Marks, at: int, score: nat, end: int) {
    && k.ban.None? && k.budget.None? && Count(k.asked) >= 0 && Later(k, at) == k
    && Count(k.score) == score && (k.score.Some? ==> k.score.value.expiresAt >= end)
  }

  /** All the calls of a burst are refused. */
  lemma AfterBurst(cfg: Config, gate: Gate, ip: string, at: int, find: seq<EdgeEvent> -> Marks,
                   front: seq<EdgeEvent>, n: nat, score: nat, end: int)
    requires cfg.policy == DEFAULT_POLICY && end <= at + 900_000 && gate.limit.max >= 0
    requires Steps(cfg, gate, ip, at, find) && Ready(find(front), at, score, end)
    requires (score == 0 && n <= 50) || (score >= 50 && n <= 10 && score + n <= 119)
    ensures Besieged(gate, find(front + Burst(gate, ip, at, n)), at, score + n, if score >= 50 then n else 0, end)
  {
    var full := front + Times(Probe(ip, at), gate.limit.max);
    AfterProbes(cfg, gate, ip, at, find, front, gate.limit.max);
    AfterCalls(cfg, gate, ip, at, find, full, n, score, end);
    assert full + Times(QuietCall(ip, at), n) == front + Burst(gate, ip, at, n);
  }

  /** A minute later the budget is renewed, and the score still held. */
  lemma ReadyAgain(gate: Gate, run: seq<EdgeEvent> -> Store, ip: string, at: int, evs: seq<EdgeEvent>, score: nat, spent: nat, end: int)
    requires Besieged(gate, FoundAt(run, ip, at)(evs), at, score, spent, end) && at + 60_001 <= end && gate.limit.max >= 0
    ensures Ready(FoundAt(run, ip, at + 60_001)(evs), at + 60_001, score, end)
  {
    LaterStill(MarksOf(run(evs), ip), at, at + 60_001);
    assert FoundAt(run, ip, at + 60_001)(evs) == Later(FoundAt(run, ip, at)(evs), at + 60_001);
  }

  lemma LaterStill(k: Marks, at: int, later: int)
    requires at <= later
    ensures Later(Later(k, at), later) == Later(k, later)
  {
  }

  lemma FirstBurst(cfg: Config, gate: Gate, run: seq<EdgeEvent> -> Store, ip: string, at: int)
    requires cfg.policy == DEFAULT_POLICY && StepsAlways(cfg, gate, ip, run) && gate.limit.max >= 0
    ensures Besieged(gate, FoundAt(run, ip, at)(Burst(gate, ip, at, 50)), at, 50, 0, at + 900_000)
  {
    assert FoundAt(run, ip, at)([]) == NO_MARKS;
    AfterBurst(cfg, gate, ip, at, FoundAt(run, ip, at), [], 50, 0, at + 900_000);
    assert [] + Burst(gate, ip, at, 50) == Burst(gate, ip, at, 50);
  }

  lemma NextBurst(cfg: Config, gate: Gate, run: seq<EdgeEvent> -> Store, ip: string, at: int, past: seq<EdgeEvent>, n: nat,
                  score: nat, spent: nat, end: int)
    requires cfg.policy == DEFAULT_POLICY && StepsAlways(cfg, gate, ip, run) && gate.limit.max >= 0 && at + 60_001 <= end <= at + 900_000
    requires Besieged(gate, FoundAt(run, ip, at)(past), at, score, spent, end) && score >= 50 && n <= 10 && score + n <= 119
    ensures Besieged(gate, FoundAt(run, ip, at + 60_001)(past + Burst(gate, ip, at + 60_001, n)), at + 60_001, score + n, n, end)
  {
    ReadyAgain(gate, run, ip, at, past, score, spent, end);
    AfterBurst(cfg, gate, ip, at + 60_001, FoundAt(run, ip, at + 60_001), past, n, score, end);
  }

  lemma SiegeGrows(gate: Gate, ip: string, start: int, rounds: nat)
    requires gate.limit.max >= 0
    ensures Siege(gate, ip, start, 0) == Burst(gate, ip, start, 50)
    ensures rounds > 0 ==>
              Siege(gate, ip, start, rounds) == Siege(gate, ip, start, rounds - 1) + Burst(gate, ip, start + rounds * 60_001, 10)
  {
  }

  /** Round after round ten more refusals. */
  lemma {:induction false} AfterSiege(cfg: Config, gate: Gate, run: seq<EdgeEvent> -> Store, ip: string, start: int, at: int, rounds: nat)
    requires cfg.policy == DEFAULT_POLICY && StepsAlways(cfg, gate, ip, run) && gate.limit.max >= 0
    requires rounds <= 6 && at == start + rounds * 60_001
    ensures Besieged(gate, FoundAt(run, ip, at)(Siege(gate, ip, start, rounds)), at,
                     50 + 10 * rounds, if rounds == 0 then 0 else 10, start + 900_000)
    decreases rounds
  {
    SiegeGrows(gate, ip, start, rounds);
    if rounds == 0 {
      FirstBurst(cfg, gate, run, ip, at);
    } else {
      AfterSiege(cfg, gate, run, ip, start, at - 60_001, rounds - 1);
      NextBurst(cfg, gate, run, ip, at - 60_001, Siege(gate, ip, start, rounds - 1), 10, 40 + 10 * rounds,
                if rounds == 1 then 0 else 10, start + 900_000);
    }
  }

  /** The refusal that reaches the threshold bans. */
  lemma LastCallBans(cfg: Config, gate: Gate, m: Store, at: int, ip: string)
    requires cfg.policy == DEFAULT_POLICY && ip !in cfg.allowlist
    requires Besieged(gate, MarksOf(m, ip), at, 119, 9, at)
    ensures Assessment(cfg, m, at, ip).level == Throttled
    ensures Assessment(cfg, Live(EdgeStep(cfg, gate, m, QuietCall(ip, at)), at), at, ip).level == Banned
  {
    var spend, ask, refusal := Spend(ip), Ask(ClientIdentity(ip), gate.limit), Report(ip, RateLimited, None);
    QuietActions(cfg, gate, m, QuietCall(ip, at), ip);
    EdgeStepPerforms(cfg, gate, m, QuietCall(ip, at));
    assert ThrottleActions(cfg, gate, m, at, ip) == [] + [spend] + [ask] + [refusal];
    PerformOne(cfg, m, at, [], spend);
    PerformOne(cfg, m, at, [] + [spend], ask);
    PerformOne(cfg, m, at, [] + [spend] + [ask], refusal);
    var spent := Step(cfg, m, at, spend);
    MarksAfterSpend(cfg, m, at, ip);
    MarksAfterAsk(cfg, gate, spent, at, ip);
    RefusalBans(cfg, Step(cfg, spent, at, ask), at, ip);
  }

  lemma RefusalBans(cfg: Config, m: Store, now: int, ip: string)
    requires cfg.policy == DEFAULT_POLICY && ip !in cfg.allowlist && Count(MarksOf(m, ip).score) == 119
    ensures Assessment(cfg, Live(Step(cfg, m, now, Report(ip, RateLimited, None)), now), now, ip).level == Banned
  {
    BanFollowsOffences(cfg, m, now, ip, RateLimited, None);
    var offences := ValueOr0(m, OffencesKey(ip)) + 1;
    assert BanLength(DEFAULT_POLICY, offences) >= 1 by {
      var factor := Pow2(Max(0, offences - 1));
      assert factor >= 1;
      assert 900 * factor >= 900;
    }
  }

  ghost predicate Proceeds(gate: Gate, ip: string, evs: seq<EdgeEvent>, start: int, end: int) {
    EdgeInOrder(evs, start, end) && AllQuiet(gate, evs, ip)
  }

  lemma BurstProceeds(gate: Gate, ip: string, front: seq<EdgeEvent>, start: int, before: int, at: int, n: nat)
    requires gate.limit.max >= 0 && before <= at && Proceeds(gate, ip, front, start, before)
    ensures Proceeds(gate, ip, front + Burst(gate, ip, at, n), start, at)
  {
    var burst := Burst(gate, ip, at, n);
    forall i | 0 <= i < |burst|
      ensures burst[i] == Probe(ip, at) || burst[i] == QuietCall(ip, at)
    {
    }
  }

  /** The requests of a siege are quiet, and in order. */
  lemma {:induction false} SiegeProceeds(gate: Gate, ip: string, start: int, at: int, rounds: nat, siege: seq<EdgeEvent>)
    requires gate.limit.max >= 0 && at == start + rounds * 60_001 && siege == Siege(gate, ip, start, rounds)
    ensures Proceeds(gate, ip, siege, start, at)
    decreases rounds
  {
    SiegeGrows(gate, ip, start, rounds);
    if rounds == 0 {
      BurstProceeds(gate, ip, [], start, start, start, 50);
      assert [] + siege == siege;
    } else {
      var past := Siege(gate, ip, start, rounds - 1);
      SiegeProceeds(gate, ip, start, at - 60_001, rounds - 1, past);
      BurstProceeds(gate, ip, past, start, at - 60_001, at, 10);
    }
  }

  /** A siege of seven rounds is one of six, and a burst, and a last call. */
  lemma LastCall(gate: Gate, ip: string, start: int, at: int, rounds: nat, past: seq<EdgeEvent>)
    requires gate.limit.max >= 0 && rounds > 0 && at == start + rounds * 60_001 && past == Siege(gate, ip, start, rounds - 1)
    ensures Siege(gate, ip, start, rounds) == past + Burst(gate, ip, at, 9) + [QuietCall(ip, at)]
  {
    SiegeGrows(gate, ip, start, rounds);
    assert Times(QuietCall(ip, at), 10) == Times(QuietCall(ip, at), 9) + [QuietCall(ip, at)];
    assert Burst(gate, ip, at, 10) == Burst(gate, ip, at, 9) + [QuietCall(ip, at)];
  }

  lemma EndOfSiege(cfg: Config, gate: Gate, m: Store, ip: string, t: int, front: seq<EdgeEvent>)
    requires cfg.policy == DEFAULT_POLICY && ip !in cfg.allowlist
    requires Besieged(gate, FoundAt(RunFrom(cfg, gate, m), ip, t)(front), t, 119, 9, t)
    ensures Assessment(cfg, Live(EdgeRun(cfg, gate, m, front), t), t, ip).level == Throttled
    ensures Assessment(cfg, Live(EdgeRun(cfg, gate, m, front + [QuietCall(ip, t)]), t), t, ip).level == Banned
  {
    OneMoreEvent(cfg, gate, m, front, QuietCall(ip, t), ip);
    LastCallBans(cfg, gate, Live(EdgeRun(cfg, gate, m, front), t), t, ip);
  }

  lemma BeforeTheLastCall(cfg: Config, gate: Gate, run: seq<EdgeEvent> -> Store, ip: string, start: int, t: int, rounds: nat)
    requires cfg.policy == DEFAULT_POLICY && StepsAlways(cfg, gate, ip, run) && gate.limit.max >= 0
    requires rounds == 7 && t == start + 420_007
    ensures Besieged(gate, FoundAt(run, ip, t)(Siege(gate, ip, start, rounds - 1) + Burst(gate, ip, t, 9)), t, 119, 9, t)
  {
    AfterSiege(cfg, gate, run, ip, start, t - 60_001, rounds - 1);
    NextBurst(cfg, gate, run, ip, t - 60_001, Siege(gate, ip, start, rounds - 1), 9, 110, 10, start + 900_000);
  }

  /** Seven minutes of probes and paced calls: after 119 refusals the address stands throttled, after the 120th it is banned. */
  lemma ProbesLetRefusalsBan(cfg: Config, gate: Gate, m: Store, ip: string, start: int, rounds: nat, evs: seq<EdgeEvent>, t: int)
    requires cfg.policy == DEFAULT_POLICY && ip !in cfg.allowlist && MarksOf(m, ip) == NO_MARKS && gate.limit.max >= 0
    requires rounds == 7 && evs == Siege(gate, ip, start, rounds) && t == start + 420_007
    ensures EdgeInOrder(evs, start, t) && AllQuiet(gate, evs, ip) && evs != []
    ensures Assessment(cfg, Live(EdgeRun(cfg, gate, m, evs[..|evs| - 1]), t), t, ip).level == Throttled
    ensures Assessment(cfg, Live(EdgeRun(cfg, gate, m, evs), t), t, ip).level == Banned
  {
    var past := Siege(gate, ip, start, rounds - 1);
    var front := past + Burst(gate, ip, t, 9);
    SiegeProceeds(gate, ip, start, t, rounds, evs);
    LastCall(gate, ip, start, t, rounds, past);
    assert evs[..|evs| - 1] == front;
    RunSteps(cfg, gate, m, ip);
    BeforeTheLastCall(cfg, gate, RunFrom(cfg, gate, m), ip, start, t, rounds);
    EndOfSiege(cfg, gate, m, ip, t, front);
  }
}
