/** What the edge answers, by the counters it finds; and what the answers score. */
module AnswerLaws {
  import opened Wrappers
  import opened TtlCache
  import opened Digest
  import opened Threat
  import opened ThreatLaws
  import opened ScoreLaws
  import opened Edge
  import opened EdgeLaws
  import opened LimiterLaws

  // ---- One request ----

  /** A ban is stored that ends later. */
  predicate BanHolds(cfg: Config, k: Marks, now: int, ip: string) {
    ip !in cfg.allowlist && k.ban.Some? && now < k.ban.value.value
  }

  predicate IsThrottled(cfg: Config, k: Marks, ip: string) {
    ip !in cfg.allowlist && Count(k.score) >= cfg.policy.throttleAt
  }

  /** Throttled, with the budget used up by the requests before. */
  predicate BudgetGone(cfg: Config, k: Marks, ip: string) {
    IsThrottled(cfg, k, ip) && Count(k.budget) >= cfg.policy.throttledBudget
  }

  predicate LimiterFull(gate: Gate, k: Marks) { Count(k.asked) >= gate.limit.max }

  lemma BannedIffHeld(cfg: Config, m: Store, now: int, ip: string)
    ensures Assessment(cfg, m, now, ip).level == Banned <==> BanHolds(cfg, MarksOf(m, ip), now, ip)
    ensures Assessment(cfg, m, now, ip).level == Throttled <==>
            !BanHolds(cfg, MarksOf(m, ip), now, ip) && IsThrottled(cfg, MarksOf(m, ip), ip)
  {
  }

  /** The answer to every request, from the counters found: refused by ban, firewall, budget or limiter, in that order. */
  lemma AnswersByCounters(cfg: Config, gate: Gate, m: Store, now: int, r: Request)
    ensures var k := MarksOf(m, r.ip);
            StatusOf(cfg, gate, m, now, r) ==
            match r
            case Preflight(_) => 204
            case HealthProbe(_, status) => if LimiterFull(gate, k) then 429 else status
            case Call(ip, matched, status, _, _) =>
              if BanHolds(cfg, k, now, ip) then 429
              else if gate.mode == Block && matched then 400
              else if BudgetGone(cfg, k, ip) || LimiterFull(gate, k) then 429
              else status
  {
    BannedIffHeld(cfg, m, now, r.ip);
  }

  /** Nothing stands between the call and its handler. */
  predicate LetThrough(cfg: Config, gate: Gate, m: Store, now: int, ip: string, matched: bool) {
    var k := MarksOf(m, ip);
    && !BanHolds(cfg, k, now, ip) && !(gate.mode == Block && matched)
    && !BudgetGone(cfg, k, ip) && !LimiterFull(gate, k)
  }

  /** A call is answered by its handler, whatever the handler says, if and only if nothing of all that applies. */
  lemma HandlerAnswersIff(cfg: Config, gate: Gate, m: Store, now: int, ip: string, matched: bool, failed: seq<Subject>, route: Subject)
    ensures (forall status :: StatusOf(cfg, gate, m, now, Call(ip, matched, status, failed, route)) == status)
            <==> LetThrough(cfg, gate, m, now, ip, matched)
  {
    AnswersByCounters(cfg, gate, m, now, Call(ip, matched, 200, failed, route));
    forall status | LetThrough(cfg, gate, m, now, ip, matched)
      ensures StatusOf(cfg, gate, m, now, Call(ip, matched, status, failed, route)) == status
    {
      AnswersByCounters(cfg, gate, m, now, Call(ip, matched, status, failed, route));
    }
    assert !LetThrough(cfg, gate, m, now, ip, matched) ==> StatusOf(cfg, gate, m, now, Call(ip, matched, 200, failed, route)) != 200;
  }

  // ---- While a ban lasts ----

  /** From the record that bans to the end of the ban every call of the address is answered 429, through any run. */
  lemma BannedCallsAreRefused(cfg: Config, gate: Gate, m: Store, now: int, ip: string, signal: Signal, subject: Option<Subject>,
                              evs: seq<EdgeEvent>, t: int, i: nat)
    requires ip !in cfg.allowlist
    requires ValueOr0(Scored(cfg, m, now, ip, signal, subject), ScoreKey(ip)) >= cfg.policy.banAt
    requires EdgeInOrder(evs, now, t)
    requires var until := now + 1000 * BanLength(cfg.policy, ValueOr0(m, OffencesKey(ip)) + 1);
             t < until && OnlyRequestsBefore(evs, ip, until)
    requires i < |evs| && evs[i].Served? && evs[i].request.Call? && evs[i].request.ip == ip
    ensures StatusOf(cfg, gate, Found(cfg, gate, Recorded(cfg, m, now, ip, signal, subject), evs[..i], evs[i]), evs[i].at, evs[i].request) == 429
  {
    BannedUntilTheEnd(cfg, gate, m, now, ip, signal, subject, evs[..i], evs[i].at);
  }

  // ---- The throttle budget ----

  /** The budget entry is bumped by spending and by nothing else but being cleared. */
  lemma BudgetAfterStep(cfg: Config, m: Store, now: int, act: Action, ip: string)
    requires act != Lift(ip) && act != Wipe(ip)
    ensures At(Step(cfg, m, now, act), BudgetKey(ip))
         == if act == Spend(ip) then Bumped(cfg.driver, At(m, BudgetKey(ip)), now, BUDGET_SECONDS) else At(m, BudgetKey(ip))
  {
    if !act.About(ip) {
      var m' := Step(cfg, m, now, act);
      StepIsLocal(cfg, m, now, act, ip);
      assert BudgetKey(ip) in m ==> BudgetKey(ip) in Own(ip, m) && Own(ip, m)[BudgetKey(ip)] == m[BudgetKey(ip)];
      assert BudgetKey(ip) in m' ==> BudgetKey(ip) in Own(ip, m') && Own(ip, m')[BudgetKey(ip)] == m'[BudgetKey(ip)];
    } else {
      FamiliesDiffer(ip, ip);
      if act.Report? && SeenKey(ip, act.signal, act.subject).Some? {
        FamilyMarks(ip, DigestOf(act.subject.value));
      }
    }
  }

  function Spendings(acts: seq<Action>, ip: string): nat
    decreases |acts|
  {
    if acts == [] then 0 else Spendings(acts[..|acts| - 1], ip) + (if acts[|acts| - 1] == Spend(ip) then 1 else 0)
  }

  predicate NoClearing(acts: seq<Action>, ip: string) {
    forall i :: 0 <= i < |acts| ==> acts[i] != Lift(ip) && acts[i] != Wipe(ip)
  }

  lemma {:induction false} BudgetAfterActions(cfg: Config, m: Store, now: int, acts: seq<Action>, ip: string)
    requires NoClearing(acts, ip) && Spendings(acts, ip) <= 1
    ensures At(Perform(cfg, m, now, acts), BudgetKey(ip))
         == if Spendings(acts, ip) == 1 then Bumped(cfg.driver, At(m, BudgetKey(ip)), now, BUDGET_SECONDS) else At(m, BudgetKey(ip))
    decreases |acts|
  {
    if acts != [] {
      var n := |acts| - 1;
      BudgetAfterActions(cfg, m, now, acts[..n], ip);
      BudgetAfterStep(cfg, Perform(cfg, m, now, acts[..n]), now, acts[n], ip);
    }
  }

  lemma {:induction false} SpendingsAppend(a: seq<Action>, b: seq<Action>, ip: string)
    ensures Spendings(a + b, ip) == Spendings(a, ip) + Spendings(b, ip)
    decreases |b|
  {
    if b == [] {
      assert a + b == a;
    } else {
      assert (a + b)[..|a + b| - 1] == a + b[..|b| - 1];
      SpendingsAppend(a, b[..|b| - 1], ip);
    }
  }

  lemma {:induction false} NoSpendings(acts: seq<Action>, ip: string)
    requires forall i :: 0 <= i < |acts| ==> acts[i] != Spend(ip)
    ensures Spendings(acts, ip) == 0
    decreases |acts|
  {
    if acts != [] {
      NoSpendings(acts[..|acts| - 1], ip);
    }
  }

  /** A call spends from the budget exactly if it finds its address throttled and comes past the firewall. */
  predicate SpendsBudget(cfg: Config, gate: Gate, m: Store, e: EdgeEvent, ip: string) {
    && e.Served? && e.request.Call? && e.request.ip == ip
    && !BanHolds(cfg, MarksOf(m, ip), e.at, ip) && IsThrottled(cfg, MarksOf(m, ip), ip)
    && !(gate.mode == Block && e.request.wafBlocked)
  }

  lemma ThrottleSpends(cfg: Config, gate: Gate, m: Store, now: int, ip: string)
    ensures Spendings(ThrottleActions(cfg, gate, m, now, ip), ip) == if Assessment(cfg, m, now, ip).level == Throttled then 1 else 0
    ensures NoClearing(ThrottleActions(cfg, gate, m, now, ip), ip)
  {
    var spend: seq<Action> := if Assessment(cfg, m, now, ip).level == Throttled then [Spend(ip)] else [];
    NoSpendings(LimiterActions(gate, m, ip), ip);
    NoSpendings([], ip);
    assert [Spend(ip)][..0] == [];
    SpendingsAppend(spend, LimiterActions(gate, m, ip), ip);
  }

  lemma OthersSpendNothing(acts: seq<Action>, ip: string)
    requires forall i :: 0 <= i < |acts| ==> acts[i].Report? || acts[i].NoteBlock?
    ensures Spendings(acts, ip) == 0 && NoClearing(acts, ip)
  {
    NoSpendings(acts, ip);
  }

  /** The actions of a call, part by part: what the firewall adds, the throttle and the limiter, the handler. */
  function Parts(cfg: Config, gate: Gate, m: Store, at: int, r: Request): (p: (seq<Action>, seq<Action>, seq<Action>, seq<Action>))
    requires r.Call?
  {
    var k := MarksOf(m, r.ip);
    if BanHolds(cfg, k, at, r.ip) then ([], [], [], [])
    else if gate.mode == Block && r.wafBlocked then (WafActions(gate.mode, r.ip, true), [], [], [])
    else if BudgetGone(cfg, k, r.ip) || LimiterFull(gate, k) then
      (WafActions(gate.mode, r.ip, r.wafBlocked), ThrottleActions(cfg, gate, m, at, r.ip), [], [])
    else
      (WafActions(gate.mode, r.ip, r.wafBlocked), ThrottleActions(cfg, gate, m, at, r.ip),
       LoginActions(r.ip, r.failedLogins), OutcomeActions(r.ip, r.status, r.route))
  }

  lemma CallActions(cfg: Config, gate: Gate, m: Store, e: EdgeEvent)
    requires e.Served? && e.request.Call?
    ensures var p := Parts(cfg, gate, m, e.at, e.request); ActionsOf(cfg, gate, m, e) == p.0 + p.1 + p.2 + p.3
  {
    BannedIffHeld(cfg, m, e.at, e.request.ip);
  }

  lemma PartsSpend(cfg: Config, gate: Gate, m: Store, e: EdgeEvent, ip: string)
    requires e.Served? && e.request.Call? && e.request.ip == ip
    ensures var p := Parts(cfg, gate, m, e.at, e.request);
            && Spendings(p.0, ip) == Spendings(p.2, ip) == Spendings(p.3, ip) == 0
            && Spendings(p.1, ip) == (if SpendsBudget(cfg, gate, m, e, ip) then 1 else 0)
            && NoClearing(p.0, ip) && NoClearing(p.1, ip) && NoClearing(p.2, ip) && NoClearing(p.3, ip)
  {
    var p := Parts(cfg, gate, m, e.at, e.request);
    BannedIffHeld(cfg, m, e.at, ip);
    ThrottleSpends(cfg, gate, m, e.at, ip);
    LoginsAreReports(ip, e.request.failedLogins);
    OthersSpendNothing([], ip);
    OthersSpendNothing(p.0, ip);
    OthersSpendNothing(p.2, ip);
    OthersSpendNothing(p.3, ip);
  }

  lemma CallSpends(cfg: Config, gate: Gate, m: Store, e: EdgeEvent, ip: string)
    requires e.Served? && e.request.Call? && e.request.ip == ip
    ensures var acts := ActionsOf(cfg, gate, m, e);
            Spendings(acts, ip) == (if SpendsBudget(cfg, gate, m, e, ip) then 1 else 0) && NoClearing(acts, ip)
  {
    var p := Parts(cfg, gate, m, e.at, e.request);
    CallActions(cfg, gate, m, e);
    PartsSpend(cfg, gate, m, e, ip);
    SpendingsAppend(p.0, p.1, ip);
    SpendingsAppend(p.0 + p.1, p.2, ip);
    SpendingsAppend(p.0 + p.1 + p.2, p.3, ip);
  }

  lemma {:induction false} LoginsAreReports(ip: string, failed: seq<Subject>)
    ensures forall i :: 0 <= i < |LoginActions(ip, failed)| ==> LoginActions(ip, failed)[i].Report?
    decreases |failed|
  {
    if failed != [] {
      LoginsAreReports(ip, failed[..|failed| - 1]);
    }
  }

  /** Of this address there are only requests. */
  predicate RequestsOnly(evs: seq<EdgeEvent>, ip: string) {
    forall i :: 0 <= i < |evs| && evs[i].About(ip) ==> evs[i].Served?
  }

  lemma BudgetAfterEvent(cfg: Config, gate: Gate, m: Store, e: EdgeEvent, ip: string)
    requires e.About(ip) ==> e.Served?
    ensures MarksOf(EdgeStep(cfg, gate, m, e), ip).budget
         == if SpendsBudget(cfg, gate, m, e, ip) then Bumped(cfg.driver, MarksOf(m, ip).budget, e.at, BUDGET_SECONDS) else MarksOf(m, ip).budget
  {
    if !e.About(ip) {
      ForeignEvent(cfg, gate, m, e, ip);
    } else {
      EdgeStepPerforms(cfg, gate, m, e);
      if e.request.Call? {
        CallSpends(cfg, gate, m, e, ip);
      } else {
        NoSpendings(ActionsOf(cfg, gate, m, e), ip);
      }
      BudgetAfterActions(cfg, m, e.at, ActionsOf(cfg, gate, m, e), ip);
    }
  }

  /** A call of a throttled address that is answered by its handler. */
  predicate ServedThrottled(cfg: Config, gate: Gate, m: Store, e: EdgeEvent, ip: string) {
    && e.Served? && e.request.Call? && e.request.ip == ip
    && IsThrottled(cfg, MarksOf(m, ip), ip) && LetThrough(cfg, gate, m, e.at, ip, e.request.wafBlocked)
  }

  function CountServed(cfg: Config, gate: Gate, m: Store, evs: seq<EdgeEvent>, ip: string): nat
    decreases |evs|
  {
    if evs == [] then 0
    else
      var e, front := evs[|evs| - 1], evs[..|evs| - 1];
      CountServed(cfg, gate, m, front, ip) + (if ServedThrottled(cfg, gate, Found(cfg, gate, m, front, e), e, ip) then 1 else 0)
  }

  /** The budget entry covers what was served, and lasts. */
  ghost predicate Covers(cfg: Config, budget: Option<Entry>, served: nat, end: int) {
    served <= cfg.policy.throttledBudget && served <= Count(budget) && (budget.Some? ==> budget.value.expiresAt >= end)
  }

  lemma {:induction false} BudgetCovers(cfg: Config, gate: Gate, m: Store, evs: seq<EdgeEvent>, ip: string, start: int, t: int)
    requires BudgetKey(ip) !in m && EdgeInOrder(evs, start, t) && t <= start + 60_000 && RequestsOnly(evs, ip)
    ensures Covers(cfg, MarksOf(Live(EdgeRun(cfg, gate, m, evs), t), ip).budget, CountServed(cfg, gate, m, evs, ip), start + 60_000)
    decreases |evs|
  {
    MarksLater(EdgeRun(cfg, gate, m, evs), ip, t);
    if evs != [] {
      var e, front := evs[|evs| - 1], evs[..|evs| - 1];
      BudgetCovers(cfg, gate, m, front, ip, start, e.at);
      BudgetAfterEvent(cfg, gate, Found(cfg, gate, m, front, e), e, ip);
    }
  }

  /** Within a minute that begins with the budget unspent, a throttled address is served no more calls than the budget has. */
  lemma BudgetBoundsService(cfg: Config, gate: Gate, m: Store, evs: seq<EdgeEvent>, ip: string, start: int, t: int)
    requires BudgetKey(ip) !in m && EdgeInOrder(evs, start, t) && t <= start + 60_000 && RequestsOnly(evs, ip)
    ensures CountServed(cfg, gate, m, evs, ip) <= cfg.policy.throttledBudget
  {
    BudgetCovers(cfg, gate, m, evs, ip, start, t);
  }

  // ---- What the answers score ----

  predicate OwnCall(e: EdgeEvent, ip: string) { e.Served? && e.request.Call? && e.request.ip == ip }

  /** A call of the address with this answer. */
  predicate Answers(cfg: Config, gate: Gate, m: Store, e: EdgeEvent, ip: string, status: nat) {
    OwnCall(e, ip) && StatusOf(cfg, gate, m, e.at, e.request) == status
  }

  predicate AnswersBroken(cfg: Config, gate: Gate, m: Store, e: EdgeEvent, ip: string) {
    OwnCall(e, ip) && StatusOf(cfg, gate, m, e.at, e.request) >= 500
  }

  /** Failed logins of a call that is let through. */
  function LoginsFailed(cfg: Config, gate: Gate, m: Store, e: EdgeEvent, ip: string): nat {
    if OwnCall(e, ip) && LetThrough(cfg, gate, m, e.at, ip, e.request.wafBlocked) then |e.request.failedLogins| else 0
  }

  /** A call of an address not banned that a rule of the firewall matches, while it is on. */
  predicate RuleMatched(cfg: Config, gate: Gate, m: Store, e: EdgeEvent, ip: string) {
    OwnCall(e, ip) && !BanHolds(cfg, MarksOf(m, ip), e.at, ip) && gate.mode != Off && e.request.wafBlocked
  }

  /** A call that comes as far as the limiter and finds its count full. */
  predicate LimiterRefuses(cfg: Config, gate: Gate, m: Store, e: EdgeEvent, ip: string) {
    var k := MarksOf(m, ip);
    && OwnCall(e, ip) && !BanHolds(cfg, k, e.at, ip) && !(gate.mode == Block && e.request.wafBlocked)
    && !BudgetGone(cfg, k, ip) && LimiterFull(gate, k)
  }

  function One(b: bool): nat { if b then 1 else 0 }

  /** How many signals of a kind an event should give. */
  function Due(cfg: Config, gate: Gate, m: Store, e: EdgeEvent, ip: string, signal: Signal): nat {
    match signal
    case WafBlock => One(RuleMatched(cfg, gate, m, e, ip))
    case AuthFailure => LoginsFailed(cfg, gate, m, e, ip) + One(Answers(cfg, gate, m, e, ip, 401))
    case Forbidden => One(Answers(cfg, gate, m, e, ip, 403))
    case NotFound => One(Answers(cfg, gate, m, e, ip, 404))
    case RateLimited => One(LimiterRefuses(cfg, gate, m, e, ip))
    case ServerError => One(AnswersBroken(cfg, gate, m, e, ip))
    case _ => 0
  }

  /** And how many a run should. */
  function Tally(cfg: Config, gate: Gate, m: Store, evs: seq<EdgeEvent>, ip: string, signal: Signal): nat
    decreases |evs|
  {
    if evs == [] then 0
    else
      var e, front := evs[|evs| - 1], evs[..|evs| - 1];
      Tally(cfg, gate, m, front, ip, signal) + Due(cfg, gate, Found(cfg, gate, m, front, e), e, ip, signal)
  }

  lemma WafReports(mode: WafMode, at: int, ip: string, matched: bool, signal: Signal)
    ensures Reports(Stamped(at, WafActions(mode, ip, matched)), ip, signal) == if mode != Off && matched && signal == WafBlock then 1 else 0
  {
    if mode != Off && matched {
      assert WafActions(mode, ip, matched) == [NoteBlock] + [Report(ip, WafBlock, None)];
      OneReport(at, [NoteBlock], Report(ip, WafBlock, None), ip, signal);
    }
  }

  lemma ThrottleSignals(cfg: Config, gate: Gate, m: Store, at: int, ip: string, signal: Signal)
    ensures Reports(Stamped(at, ThrottleActions(cfg, gate, m, at, ip)), ip, signal)
         == if signal == RateLimited && !OverBudget(cfg, m, at, ip) && !LimiterAllows(gate, m, ip) then 1 else 0
  {
    ThrottleReports(cfg, gate, m, at, ip);
    if signal != RateLimited {
      NoReports(Stamped(at, ThrottleActions(cfg, gate, m, at, ip)), ip, signal);
    }
  }

  lemma {:induction false} LoginReports(at: int, ip: string, failed: seq<Subject>, signal: Signal)
    ensures Reports(Stamped(at, LoginActions(ip, failed)), ip, signal) == if signal == AuthFailure then |failed| else 0
    decreases |failed|
  {
    if failed != [] {
      var front, last := failed[..|failed| - 1], Report(ip, AuthFailure, Some(failed[|failed| - 1]));
      LoginReports(at, ip, front, signal);
      assert Stamped(at, LoginActions(ip, front) + [last]) == Stamped(at, LoginActions(ip, front)) + [Event(at, last)];
      ReportsAppend(Stamped(at, LoginActions(ip, front)), [Event(at, last)], ip, signal);
      OneReport(at, [], last, ip, signal);
      assert Stamped(at, [] + [last]) == [Event(at, last)];
    }
  }

  lemma OutcomeReports(at: int, ip: string, status: nat, route: Subject, signal: Signal)
    ensures Reports(Stamped(at, OutcomeActions(ip, status, route)), ip, signal)
         == if (signal == AuthFailure && status == 401) || (signal == Forbidden && status == 403)
               || (signal == NotFound && status == 404) || (signal == ServerError && status >= 500) then 1 else 0
  {
    var acts := OutcomeActions(ip, status, route);
    if acts != [] {
      assert acts == [] + [acts[0]];
      OneReport(at, [], acts[0], ip, signal);
    } else {
      NoReports(Stamped(at, acts), ip, signal);
    }
  }

  lemma PartsReport(at: int, a: seq<Action>, b: seq<Action>, c: seq<Action>, d: seq<Action>, ip: string, signal: Signal)
    ensures Reports(Stamped(at, a + b + c + d), ip, signal)
         == Reports(Stamped(at, a), ip, signal) + Reports(Stamped(at, b), ip, signal)
            + Reports(Stamped(at, c), ip, signal) + Reports(Stamped(at, d), ip, signal)
  {
    assert Stamped(at, a + b + c + d) == Stamped(at, a) + Stamped(at, b) + Stamped(at, c) + Stamped(at, d);
    ReportsAppend(Stamped(at, a), Stamped(at, b), ip, signal);
    ReportsAppend(Stamped(at, a) + Stamped(at, b), Stamped(at, c), ip, signal);
    ReportsAppend(Stamped(at, a) + Stamped(at, b) + Stamped(at, c), Stamped(at, d), ip, signal);
  }

  lemma DefencesReport(cfg: Config, gate: Gate, m: Store, e: EdgeEvent, ip: string, signal: Signal)
    requires OwnCall(e, ip)
    ensures var p := Parts(cfg, gate, m, e.at, e.request);
            && Reports(Stamped(e.at, p.0), ip, signal) == One(signal == WafBlock && RuleMatched(cfg, gate, m, e, ip))
            && Reports(Stamped(e.at, p.1), ip, signal) == One(signal == RateLimited && LimiterRefuses(cfg, gate, m, e, ip))
  {
    NoReports(Stamped(e.at, []), ip, signal);
    WafReports(gate.mode, e.at, ip, e.request.wafBlocked, signal);
    ThrottleSignals(cfg, gate, m, e.at, ip, signal);
    BannedIffHeld(cfg, m, e.at, ip);
  }

  lemma HandlerReports(cfg: Config, gate: Gate, m: Store, e: EdgeEvent, ip: string, signal: Signal)
    requires OwnCall(e, ip)
    ensures var p := Parts(cfg, gate, m, e.at, e.request);
            Reports(Stamped(e.at, p.2), ip, signal) + Reports(Stamped(e.at, p.3), ip, signal)
            == if signal == WafBlock || signal == RateLimited then 0 else Due(cfg, gate, m, e, ip, signal)
  {
    var r := e.request;
    NoReports(Stamped(e.at, []), ip, signal);
    LoginReports(e.at, ip, r.failedLogins, signal);
    OutcomeReports(e.at, ip, r.status, r.route, signal);
    AnswersByCounters(cfg, gate, m, e.at, r);
  }

  lemma CallReports(cfg: Config, gate: Gate, m: Store, e: EdgeEvent, ip: string, signal: Signal)
    requires OwnCall(e, ip)
    ensures Reports(Stamped(e.at, ActionsOf(cfg, gate, m, e)), ip, signal) == Due(cfg, gate, m, e, ip, signal)
  {
    var p := Parts(cfg, gate, m, e.at, e.request);
    CallActions(cfg, gate, m, e);
    PartsReport(e.at, p.0, p.1, p.2, p.3, ip, signal);
    DefencesReport(cfg, gate, m, e, ip, signal);
    HandlerReports(cfg, gate, m, e, ip, signal);
  }

  lemma EventReports(cfg: Config, gate: Gate, m: Store, e: EdgeEvent, ip: string, signal: Signal)
    requires e.About(ip) ==> e.Served?
    ensures Reports(Stamped(e.at, ActionsOf(cfg, gate, m, e)), ip, signal) == Due(cfg, gate, m, e, ip, signal)
  {
    if OwnCall(e, ip) {
      CallReports(cfg, gate, m, e, ip, signal);
    } else {
      if !e.About(ip) && e.Served? {
        ActionsAreOwn(cfg, gate, m, e.at, e.request, ip);
      }
      NoReports(Stamped(e.at, ActionsOf(cfg, gate, m, e)), ip, signal);
    }
  }

  /** The signals recorded over a run are its answers: 403s, 404s, errors, 401s and failed logins, matched rules, refusals. */
  lemma {:induction false} ReportsAreAnswers(cfg: Config, gate: Gate, m: Store, evs: seq<EdgeEvent>, ip: string, signal: Signal)
    requires RequestsOnly(evs, ip)
    ensures Reports(Trace(cfg, gate, m, evs), ip, signal) == Tally(cfg, gate, m, evs, ip, signal)
    decreases |evs|
  {
    if evs != [] {
      var e, front := evs[|evs| - 1], evs[..|evs| - 1];
      ReportsAreAnswers(cfg, gate, m, front, ip, signal);
      var before := Found(cfg, gate, m, front, e);
      EventReports(cfg, gate, before, e, ip, signal);
      ReportsAppend(Trace(cfg, gate, m, front), Stamped(e.at, ActionsOf(cfg, gate, before, e)), ip, signal);
    }
  }

  // ---- The accounts and paths behind them ----

  function LoginDigests(failed: seq<Subject>): set<string>
    decreases |failed|
  {
    if failed == [] then {}
    else
      var last := failed[|failed| - 1];
      LoginDigests(failed[..|failed| - 1]) + (if last == [] then {} else {DigestOf(last)})
  }

  /** The accounts an event fails to sign in, if it is let through; and the path it asks for, if the answer is 404. */
  function NewDigests(cfg: Config, gate: Gate, m: Store, e: EdgeEvent, ip: string, signal: Signal): set<string> {
    if signal == AuthFailure && OwnCall(e, ip) && LetThrough(cfg, gate, m, e.at, ip, e.request.wafBlocked) then
      LoginDigests(e.request.failedLogins)
    else if signal == NotFound && Answers(cfg, gate, m, e, ip, 404) && e.request.route != [] then {DigestOf(e.request.route)}
    else {}
  }

  function DigestsMet(cfg: Config, gate: Gate, m: Store, evs: seq<EdgeEvent>, ip: string, signal: Signal): set<string>
    decreases |evs|
  {
    if evs == [] then {}
    else
      var e, front := evs[|evs| - 1], evs[..|evs| - 1];
      DigestsMet(cfg, gate, m, front, ip, signal) + NewDigests(cfg, gate, Found(cfg, gate, m, front, e), e, ip, signal)
  }

  lemma {:induction false} SeenAppend(front: seq<Event>, more: seq<Event>, ip: string, signal: Signal)
    ensures SeenDigests(front + more, ip, signal) == SeenDigests(front, ip, signal) + SeenDigests(more, ip, signal)
    decreases |more|
  {
    var all := front + more;
    if more == [] {
      assert all == front;
    } else {
      assert all[..|all| - 1] == front + more[..|more| - 1];
      SeenAppend(front, more[..|more| - 1], ip, signal);
    }
  }

  /** One report at the end of actions that aim at nothing. */
  lemma OneSeen(at: int, acts: seq<Action>, last: Action, ip: string, signal: Signal)
    requires forall i :: 0 <= i < |acts| ==> !Aimed(acts[i], ip, signal)
    ensures SeenDigests(Stamped(at, acts + [last]), ip, signal) == if Aimed(last, ip, signal) then {DigestOf(last.subject.value)} else {}
  {
    var all := Stamped(at, acts + [last]);
    assert all[..|all| - 1] == Stamped(at, acts);
    NoneSeen(Stamped(at, acts), ip, signal);
  }

  lemma {:induction false} LoginsSeen(at: int, ip: string, failed: seq<Subject>, signal: Signal)
    ensures SeenDigests(Stamped(at, LoginActions(ip, failed)), ip, signal) == if signal == AuthFailure then LoginDigests(failed) else {}
    decreases |failed|
  {
    if failed != [] {
      var front, last := failed[..|failed| - 1], Report(ip, AuthFailure, Some(failed[|failed| - 1]));
      LoginsSeen(at, ip, front, signal);
      assert Stamped(at, LoginActions(ip, front) + [last]) == Stamped(at, LoginActions(ip, front)) + [Event(at, last)];
      SeenAppend(Stamped(at, LoginActions(ip, front)), [Event(at, last)], ip, signal);
      OneSeen(at, [], last, ip, signal);
      assert Stamped(at, [] + [last]) == [Event(at, last)];
    }
  }

  lemma OutcomeSeen(at: int, ip: string, status: nat, route: Subject, signal: Signal)
    ensures SeenDigests(Stamped(at, OutcomeActions(ip, status, route)), ip, signal)
         == if signal == NotFound && status == 404 && route != [] then {DigestOf(route)} else {}
  {
    var acts := OutcomeActions(ip, status, route);
    if acts != [] {
      assert acts == [] + [acts[0]];
      OneSeen(at, [], acts[0], ip, signal);
    } else {
      NoneSeen(Stamped(at, acts), ip, signal);
    }
  }

  lemma PartsSeen(at: int, a: seq<Action>, b: seq<Action>, c: seq<Action>, d: seq<Action>, ip: string, signal: Signal)
    requires AimsAtNothing(a, ip, signal) && AimsAtNothing(b, ip, signal)
    ensures SeenDigests(Stamped(at, a + b + c + d), ip, signal) == SeenDigests(Stamped(at, c), ip, signal) + SeenDigests(Stamped(at, d), ip, signal)
  {
    assert Stamped(at, a + b + c + d) == Stamped(at, a + b) + Stamped(at, c) + Stamped(at, d);
    SeenAppend(Stamped(at, a + b), Stamped(at, c), ip, signal);
    SeenAppend(Stamped(at, a + b) + Stamped(at, c), Stamped(at, d), ip, signal);
    NoneSeen(Stamped(at, a + b), ip, signal);
  }

  predicate AimsAtNothing(acts: seq<Action>, ip: string, signal: Signal) {
    forall i :: 0 <= i < |acts| ==> !Aimed(acts[i], ip, signal)
  }

  lemma DefencesAimAtNothing(cfg: Config, gate: Gate, m: Store, at: int, r: Request, signal: Signal)
    requires r.Call?
    ensures var p := Parts(cfg, gate, m, at, r); AimsAtNothing(p.0, r.ip, signal) && AimsAtNothing(p.1, r.ip, signal)
  {
    LimiterAimsAtNothing(cfg, gate, m, at, r.ip, signal);
  }

  lemma LimiterAimsAtNothing(cfg: Config, gate: Gate, m: Store, at: int, ip: string, signal: Signal)
    ensures AimsAtNothing(ThrottleActions(cfg, gate, m, at, ip), ip, signal)
  {
    assert AimsAtNothing(LimiterActions(gate, m, ip), ip, signal);
  }

  lemma CallSeen(cfg: Config, gate: Gate, m: Store, e: EdgeEvent, ip: string, signal: Signal)
    requires OwnCall(e, ip)
    ensures SeenDigests(Stamped(e.at, ActionsOf(cfg, gate, m, e)), ip, signal) == NewDigests(cfg, gate, m, e, ip, signal)
  {
    var r := e.request;
    var p := Parts(cfg, gate, m, e.at, r);
    CallActions(cfg, gate, m, e);
    DefencesAimAtNothing(cfg, gate, m, e.at, r, signal);
    PartsSeen(e.at, p.0, p.1, p.2, p.3, ip, signal);
    NoneSeen(Stamped(e.at, []), ip, signal);
    HandlerSeen(cfg, gate, m, e, ip, signal);
  }

  lemma HandlerSeen(cfg: Config, gate: Gate, m: Store, e: EdgeEvent, ip: string, signal: Signal)
    requires OwnCall(e, ip)
    ensures var p := Parts(cfg, gate, m, e.at, e.request);
            SeenDigests(Stamped(e.at, p.2), ip, signal) + SeenDigests(Stamped(e.at, p.3), ip, signal) == NewDigests(cfg, gate, m, e, ip, signal)
  {
    var r := e.request;
    NoneSeen(Stamped(e.at, []), ip, signal);
    LoginsSeen(e.at, ip, r.failedLogins, signal);
    OutcomeSeen(e.at, ip, r.status, r.route, signal);
    AnswersByCounters(cfg, gate, m, e.at, r);
  }

  lemma EventSeen(cfg: Config, gate: Gate, m: Store, e: EdgeEvent, ip: string, signal: Signal)
    requires e.About(ip) ==> e.Served?
    ensures SeenDigests(Stamped(e.at, ActionsOf(cfg, gate, m, e)), ip, signal) == NewDigests(cfg, gate, m, e, ip, signal)
  {
    if OwnCall(e, ip) {
      CallSeen(cfg, gate, m, e, ip, signal);
    } else {
      if !e.About(ip) && e.Served? {
        ActionsAreOwn(cfg, gate, m, e.at, e.request, ip);
      }
      NoneSeen(Stamped(e.at, ActionsOf(cfg, gate, m, e)), ip, signal);
    }
  }

  /** The digests remembered over a run are those of the accounts and paths its answers are about. */
  lemma {:induction false} SeenAreMet(cfg: Config, gate: Gate, m: Store, evs: seq<EdgeEvent>, ip: string, signal: Signal)
    requires RequestsOnly(evs, ip)
    ensures SeenDigests(Trace(cfg, gate, m, evs), ip, signal) == DigestsMet(cfg, gate, m, evs, ip, signal)
    decreases |evs|
  {
    if evs != [] {
      var e, front := evs[|evs| - 1], evs[..|evs| - 1];
      SeenAreMet(cfg, gate, m, front, ip, signal);
      var before := Found(cfg, gate, m, front, e);
      EventSeen(cfg, gate, before, e, ip, signal);
      SeenAppend(Trace(cfg, gate, m, front), Stamped(e.at, ActionsOf(cfg, gate, before, e)), ip, signal);
    }
  }

  /**
   * Within one window the score is what the answers come to: 25 for each matched rule, 10 for each 403, 3 for each
   * error, 1 for each refusal by the limiter, 8 for each 401 and failed login and 2 for each 404, and 14 and 7 more
   * where the account or the path was new.
   */
  lemma ScoreByAnswers(cfg: Config, gate: Gate, m: Store, evs: seq<EdgeEvent>, ip: string, start: int, t: int)
    requires EdgeInOrder(evs, start, t) && OneWindow(cfg, m, Trace(cfg, gate, m, evs), ip, start, t) && RequestsOnly(evs, ip)
    ensures Assessment(cfg, Live(EdgeRun(cfg, gate, m, evs), t), t, ip).score
            == 25 * Tally(cfg, gate, m, evs, ip, WafBlock)
               + 10 * Tally(cfg, gate, m, evs, ip, Forbidden)
               + 3 * Tally(cfg, gate, m, evs, ip, ServerError)
               + Tally(cfg, gate, m, evs, ip, RateLimited)
               + 8 * Tally(cfg, gate, m, evs, ip, AuthFailure)
               + 2 * Tally(cfg, gate, m, evs, ip, NotFound)
               + 14 * |DigestsMet(cfg, gate, m, evs, ip, AuthFailure)| + 7 * |DigestsMet(cfg, gate, m, evs, ip, NotFound)|
  {
    var trace := Trace(cfg, gate, m, evs);
    EdgeScoreBySignals(cfg, gate, m, evs, ip, start, t);
    OtherWeightsBySignal(trace, ip);
    SeenAreMet(cfg, gate, m, evs, ip, AuthFailure);
    SeenAreMet(cfg, gate, m, evs, ip, NotFound);
    ReportsAreAnswers(cfg, gate, m, evs, ip, WafBlock);
    ReportsAreAnswers(cfg, gate, m, evs, ip, Forbidden);
    ReportsAreAnswers(cfg, gate, m, evs, ip, ServerError);
    ReportsAreAnswers(cfg, gate, m, evs, ip, RateLimited);
    ReportsAreAnswers(cfg, gate, m, evs, ip, AuthFailure);
    ReportsAreAnswers(cfg, gate, m, evs, ip, NotFound);
    ReportsAreAnswers(cfg, gate, m, evs, ip, AuthFailureNewAccount);
    ReportsAreAnswers(cfg, gate, m, evs, ip, NotFoundNewPath);
    NothingTallied(cfg, gate, m, evs, ip, AuthFailureNewAccount);
    NothingTallied(cfg, gate, m, evs, ip, NotFoundNewPath);
  }

  lemma {:induction false} NothingTallied(cfg: Config, gate: Gate, m: Store, evs: seq<EdgeEvent>, ip: string, signal: Signal)
    requires signal == AuthFailureNewAccount || signal == NotFoundNewPath
    ensures Tally(cfg, gate, m, evs, ip, signal) == 0
    decreases |evs|
  {
    if evs != [] {
      NothingTallied(cfg, gate, m, evs[..|evs| - 1], ip, signal);
    }
  }
}
