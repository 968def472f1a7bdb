/** Within one window, the stored score is the sum of what the address did. */
module ScoreLaws {
  import opened Wrappers
  import opened TtlCache
  import opened Digest
  import opened Threat
  import opened ThreatLaws
  import opened BanLaws

  /** The subjects of an address already seen under a signal, by digest. */
  function SeenDigests(evs: seq<Event>, ip: string, signal: Signal): set<string>
    decreases |evs|
  {
    if evs == [] then {}
    else
      Known(evs[|evs| - 1].act, ip, signal, SeenDigests(evs[..|evs| - 1], ip, signal))
  }

  /** The digests known after an action. */
  function Known(act: Action, ip: string, signal: Signal, before: set<string>): set<string> {
    if Aimed(act, ip, signal) then before + {DigestOf(act.subject.value)} else before
  }

  /** A report that carries a subject worth remembering. */
  predicate Aimed(act: Action, ip: string, signal: Signal) {
    act.Report? && act.ip == ip && act.signal == signal && act.subject.Some? && act.subject.value != []
  }

  /** The weights of the signals as reported, before any sharpening. */
  function PlainTotal(evs: seq<Event>, ip: string): nat
    decreases |evs|
  {
    if evs == [] then 0
    else
      var act := evs[|evs| - 1].act;
      PlainTotal(evs[..|evs| - 1], ip) + (if act.Report? && act.ip == ip then Weight(act.signal) else 0)
  }

  /** Each fresh account adds 22 instead of 8, each fresh path 9 instead of 2. */
  function ExpectedScore(evs: seq<Event>, ip: string): nat {
    PlainTotal(evs, ip) + 14 * |SeenDigests(evs, ip, AuthFailure)| + 7 * |SeenDigests(evs, ip, NotFound)|
  }

  /** The run stays inside one window that starts with no score and no remembered subject. */
  ghost predicate OneWindow(cfg: Config, m: Store, evs: seq<Event>, ip: string, start: int, t: int) {
    && ip !in cfg.allowlist
    && InOrder(evs, start, t)
    && t <= start + cfg.policy.windowSeconds * 1000
    && ScoreKey(ip) !in m
    && (forall d :: AccountKey(ip, d) !in m && PathKey(ip, d) !in m)
    && (forall i :: 0 <= i < |evs| ==> evs[i].act != Lift(ip) && evs[i].act != Wipe(ip))
  }

  /** What the cache holds for the address: its score, and the subjects it is known for. */
  ghost predicate ScoreHeld(m: Store, ip: string, score: int, until: int) {
    && score >= 0
    && (ScoreKey(ip) in m <==> score > 0)
    && (ScoreKey(ip) in m ==> m[ScoreKey(ip)].value == score && m[ScoreKey(ip)].expiresAt >= until)
  }

  ghost predicate SeenHeld(m: Store, ip: string, accounts: set<string>, paths: set<string>, until: int) {
    forall d :: ':' !in d ==> SeenAt(m, ip, d, accounts, paths, until)
  }

  predicate SeenAt(m: Store, ip: string, d: string, accounts: set<string>, paths: set<string>, until: int) {
    && (if d in accounts then Counted(m, AccountKey(ip, d), until) else AccountKey(ip, d) !in m)
    && (if d in paths then Counted(m, PathKey(ip, d), until) else PathKey(ip, d) !in m)
  }

  predicate Counted(m: Store, key: string, until: int) {
    key in m && m[key].value > 0 && m[key].expiresAt >= until
  }

  lemma RememberedKeysInjective(ip: string, d: string, d': string)
    ensures AccountKey(ip, d) == AccountKey(ip, d') ==> d == d'
    ensures PathKey(ip, d) == PathKey(ip, d') ==> d == d'
    ensures AccountKey(ip, d) != PathKey(ip, d')
  {
    FamilyMarks(ip, d);
    FamilyMarks(ip, d');
    if AccountKey(ip, d) == AccountKey(ip, d') {
      DropPrefix("threat:acct:", ip + ":" + d, ip + ":" + d');
      DropPrefix(ip + ":", d, d');
    }
    if PathKey(ip, d) == PathKey(ip, d') {
      DropPrefix("threat:path:", ip + ":" + d, ip + ":" + d');
      DropPrefix(ip + ":", d, d');
    }
  }

  /** Scoring and banning leave the remembered subjects alone. */
  lemma RecordKeepsSeen(cfg: Config, m: Store, now: int, ip: string, signal: Signal, subject: Option<Subject>, d: string)
    requires ip !in cfg.allowlist
    ensures var seen, m' := Remembered(cfg, m, now, ip, signal, subject), Recorded(cfg, m, now, ip, signal, subject);
            && (AccountKey(ip, d) in m' <==> AccountKey(ip, d) in seen)
            && (AccountKey(ip, d) in m' ==> m'[AccountKey(ip, d)] == seen[AccountKey(ip, d)])
            && (PathKey(ip, d) in m' <==> PathKey(ip, d) in seen)
            && (PathKey(ip, d) in m' ==> m'[PathKey(ip, d)] == seen[PathKey(ip, d)])
  {
    FamilyMarks(ip, d);
  }

  lemma ReportHoldsSeenAt(cfg: Config, m: Store, now: int, ip: string, signal: Signal, subject: Option<Subject>, d: string,
                          accounts: set<string>, paths: set<string>, until: int)
    requires ip !in cfg.allowlist && until <= now + cfg.policy.windowSeconds * 1000
    requires SeenHeld(m, ip, accounts, paths, until) && ':' !in d
    ensures var act := Report(ip, signal, subject);
            SeenAt(Recorded(cfg, m, now, ip, signal, subject), ip, d, Known(act, ip, AuthFailure, accounts),
                   Known(act, ip, NotFound, paths), until)
  {
    assert SeenAt(m, ip, d, accounts, paths, until);
    RecordKeepsSeen(cfg, m, now, ip, signal, subject, d);
    if SeenKey(ip, signal, subject).Some? {
      var own := DigestOf(subject.value);
      DigestHasNoColon(subject.value);
      assert SeenAt(m, ip, own, accounts, paths, until);
      RememberedKeysInjective(ip, d, own);
      RememberedKeysInjective(ip, own, d);
    }
  }

  lemma OneMoreOrSame(known: set<string>, d: string)
    ensures |known + {d}| == |known| + if d in known then 0 else 1
  {
    assert d in known ==> known + {d} == known;
  }

  /** A report sharpens exactly when its subject is not known. */
  lemma EffectiveWeight(m: Store, ip: string, signal: Signal, subject: Option<Subject>,
                        accounts: set<string>, paths: set<string>, until: int)
    requires SeenHeld(m, ip, accounts, paths, until)
    ensures var act := Report(ip, signal, subject);
            Weight(Effective(m, ip, signal, subject)) == Weight(signal)
              + 14 * (|Known(act, ip, AuthFailure, accounts)| - |accounts|) + 7 * (|Known(act, ip, NotFound, paths)| - |paths|)
  {
    if SeenKey(ip, signal, subject).Some? {
      var own := DigestOf(subject.value);
      DigestHasNoColon(subject.value);
      assert SeenAt(m, ip, own, accounts, paths, until);
      OneMoreOrSame(accounts, own);
      OneMoreOrSame(paths, own);
    }
  }

  lemma ReportHoldsScore(cfg: Config, m: Store, now: int, ip: string, signal: Signal, subject: Option<Subject>,
                         score: int, until: int)
    requires ip !in cfg.allowlist && until <= now + cfg.policy.windowSeconds * 1000
    requires ScoreHeld(m, ip, score, until)
    ensures ScoreHeld(Recorded(cfg, m, now, ip, signal, subject), ip, score + Weight(Effective(m, ip, signal, subject)), until)
  {
    FamiliesDiffer(ip, ip);
    if SeenKey(ip, signal, subject).Some? {
      FamilyMarks(ip, DigestOf(subject.value));
    }
  }

  /** The state of the address after any run inside the window, other addresses and operator bans included. */
  lemma {:induction false} RunHolds(cfg: Config, m: Store, evs: seq<Event>, ip: string, start: int, t: int)
    requires OneWindow(cfg, m, evs, ip, start, t)
    ensures var r, until := Live(Run(cfg, m, evs), t), start + cfg.policy.windowSeconds * 1000;
            && ScoreHeld(r, ip, ExpectedScore(evs, ip), until)
            && SeenHeld(r, ip, SeenDigests(evs, ip, AuthFailure), SeenDigests(evs, ip, NotFound), until)
    decreases |evs|
  {
    var until := start + cfg.policy.windowSeconds * 1000;
    if evs == [] {
      NothingHeld(m, t, ip, until);
    } else {
      var e, front := evs[|evs| - 1], evs[..|evs| - 1];
      var accounts, paths := SeenDigests(front, ip, AuthFailure), SeenDigests(front, ip, NotFound);
      assert OneWindow(cfg, m, front, ip, start, e.at);
      RunHolds(cfg, m, front, ip, start, e.at);
      StepHolds(cfg, Live(Run(cfg, m, front), e.at), e.at, e.act, ip, ExpectedScore(front, ip), accounts, paths, until);
      StaysHeld(Run(cfg, m, evs), t, ip, ExpectedScore(evs, ip),
                Known(e.act, ip, AuthFailure, accounts), Known(e.act, ip, NotFound, paths), until);
    }
  }

  lemma NothingHeld(m: Store, t: int, ip: string, until: int)
    requires ScoreKey(ip) !in m
    requires forall d :: AccountKey(ip, d) !in m && PathKey(ip, d) !in m
    ensures ScoreHeld(Live(m, t), ip, 0, until) && SeenHeld(Live(m, t), ip, {}, {}, until)
  {
  }

  lemma StaysHeld(m: Store, t: int, ip: string, score: nat, accounts: set<string>, paths: set<string>, until: int)
    requires ScoreHeld(m, ip, score, until) && SeenHeld(m, ip, accounts, paths, until) && t <= until
    ensures ScoreHeld(Live(m, t), ip, score, until) && SeenHeld(Live(m, t), ip, accounts, paths, until)
  {
    forall d | ':' !in d
      ensures SeenAt(Live(m, t), ip, d, accounts, paths, until)
    {
      assert SeenAt(m, ip, d, accounts, paths, until);
    }
  }

  lemma StepHolds(cfg: Config, m: Store, now: int, act: Action, ip: string,
                  score: int, accounts: set<string>, paths: set<string>, until: int)
    requires ip !in cfg.allowlist && until <= now + cfg.policy.windowSeconds * 1000
    requires act != Lift(ip) && act != Wipe(ip)
    requires ScoreHeld(m, ip, score, until) && SeenHeld(m, ip, accounts, paths, until)
    ensures var accounts', paths' := Known(act, ip, AuthFailure, accounts), Known(act, ip, NotFound, paths);
            var plain := if act.Report? && act.ip == ip then Weight(act.signal) else 0;
            && ScoreHeld(Step(cfg, m, now, act), ip, score + plain + 14 * (|accounts'| - |accounts|) + 7 * (|paths'| - |paths|), until)
            && SeenHeld(Step(cfg, m, now, act), ip, accounts', paths', until)
  {
    if act.Report? && act.ip == ip {
      OwnReportHolds(cfg, m, now, act, score, accounts, paths, until);
    } else {
      OtherStepHolds(cfg, m, now, act, ip, score, accounts, paths, until);
    }
  }

  lemma OwnReportHolds(cfg: Config, m: Store, now: int, act: Action,
                       score: int, accounts: set<string>, paths: set<string>, until: int)
    requires act.Report? && act.ip !in cfg.allowlist && until <= now + cfg.policy.windowSeconds * 1000
    requires ScoreHeld(m, act.ip, score, until) && SeenHeld(m, act.ip, accounts, paths, until)
    ensures var accounts', paths' := Known(act, act.ip, AuthFailure, accounts), Known(act, act.ip, NotFound, paths);
            var m' := Recorded(cfg, m, now, act.ip, act.signal, act.subject);
            && ScoreHeld(m', act.ip, score + Weight(act.signal) + 14 * (|accounts'| - |accounts|) + 7 * (|paths'| - |paths|), until)
            && SeenHeld(m', act.ip, accounts', paths', until)
  {
    ReportHoldsScore(cfg, m, now, act.ip, act.signal, act.subject, score, until);
    EffectiveWeight(m, act.ip, act.signal, act.subject, accounts, paths, until);
    forall d | ':' !in d {
      ReportHoldsSeenAt(cfg, m, now, act.ip, act.signal, act.subject, d, accounts, paths, until);
    }
  }

  lemma OtherStepHolds(cfg: Config, m: Store, now: int, act: Action, ip: string,
                       score: int, accounts: set<string>, paths: set<string>, until: int)
    requires act != Lift(ip) && act != Wipe(ip) && !(act.Report? && act.ip == ip)
    requires ScoreHeld(m, ip, score, until) && SeenHeld(m, ip, accounts, paths, until)
    ensures ScoreHeld(Step(cfg, m, now, act), ip, score, until)
    ensures SeenHeld(Step(cfg, m, now, act), ip, accounts, paths, until)
  {
    var m' := Step(cfg, m, now, act);
    forall k | Owns(ip, k) && k !in {BanKey(ip), OffencesKey(ip), BudgetKey(ip)}
      ensures k in m <==> k in m'
      ensures k in m ==> m[k] == m'[k]
    {
      if act.About(ip) {
        FamiliesDiffer(ip, ip);
        if k != ScoreKey(ip) {
          var d :| ':' !in d && (k == AccountKey(ip, d) || k == PathKey(ip, d));
          FamilyMarks(ip, d);
        }
      } else {
        StepIsLocal(cfg, m, now, act, ip);
        assert k in m ==> k in Own(ip, m) && Own(ip, m)[k] == m[k];
        assert k in m' ==> k in Own(ip, m') && Own(ip, m')[k] == m'[k];
      }
    }
    FamiliesDiffer(ip, ip);
    forall d | ':' !in d
      ensures SeenAt(m', ip, d, accounts, paths, until)
    {
      assert SeenAt(m, ip, d, accounts, paths, until);
      FamilyMarks(ip, d);
      assert Owns(ip, AccountKey(ip, d)) && Owns(ip, PathKey(ip, d));
    }
  }

  // ── Consequences ──

  /** The stored score is exactly the sum of the weights of the sharpened signals. */
  lemma ScoreIsSumOfWeights(cfg: Config, m: Store, evs: seq<Event>, ip: string, start: int, t: int)
    requires OneWindow(cfg, m, evs, ip, start, t)
    ensures Assessment(cfg, Live(Run(cfg, m, evs), t), t, ip).score == ExpectedScore(evs, ip)
  {
    RunHolds(cfg, m, evs, ip, start, t);
  }

  /** How many reports of one signal an address made, with or without a subject. */
  function Reports(evs: seq<Event>, ip: string, signal: Signal): nat
    decreases |evs|
  {
    if evs == [] then 0
    else
      var act := evs[|evs| - 1].act;
      Reports(evs[..|evs| - 1], ip, signal) + (if act.Report? && act.ip == ip && act.signal == signal then 1 else 0)
  }

  /** The weights of everything but failed logins and not-founds. */
  function OtherWeights(evs: seq<Event>, ip: string): nat
    decreases |evs|
  {
    if evs == [] then 0
    else
      var act := evs[|evs| - 1].act;
      OtherWeights(evs[..|evs| - 1], ip)
      + (if act.Report? && act.ip == ip && act.signal !in {AuthFailure, NotFound} then Weight(act.signal) else 0)
  }

  lemma {:induction false} PlainTotalBySignal(evs: seq<Event>, ip: string)
    ensures PlainTotal(evs, ip) == 8 * Reports(evs, ip, AuthFailure) + 2 * Reports(evs, ip, NotFound) + OtherWeights(evs, ip)
    decreases |evs|
  {
    if evs != [] {
      PlainTotalBySignal(evs[..|evs| - 1], ip);
    }
  }

  /** Signal by signal: what each weighs. */
  lemma {:induction false} OtherWeightsBySignal(evs: seq<Event>, ip: string)
    ensures OtherWeights(evs, ip)
         == 25 * Reports(evs, ip, WafBlock) + 10 * Reports(evs, ip, Forbidden) + Reports(evs, ip, RateLimited)
            + 3 * Reports(evs, ip, ServerError) + 22 * Reports(evs, ip, AuthFailureNewAccount) + 9 * Reports(evs, ip, NotFoundNewPath)
    decreases |evs|
  {
    if evs != [] {
      OtherWeightsBySignal(evs[..|evs| - 1], ip);
    }
  }

  lemma {:induction false} SeenAreReported(evs: seq<Event>, ip: string, signal: Signal)
    ensures |SeenDigests(evs, ip, signal)| <= Reports(evs, ip, signal)
    decreases |evs|
  {
    if evs != [] {
      SeenAreReported(evs[..|evs| - 1], ip, signal);
    }
  }

  /**
   * Whatever the mix of signals: of n failed logins on k accounts and n' not-founds on k' paths, each first one
   * of an account or path counts 22 or 9, every other 8 or 2, and all else its own weight.
   */
  lemma ScoreBySignals(cfg: Config, m: Store, evs: seq<Event>, ip: string, start: int, t: int)
    requires OneWindow(cfg, m, evs, ip, start, t)
    ensures var n, k := Reports(evs, ip, AuthFailure), |SeenDigests(evs, ip, AuthFailure)|;
            var n', k' := Reports(evs, ip, NotFound), |SeenDigests(evs, ip, NotFound)|;
            && k <= n && k' <= n'
            && Assessment(cfg, Live(Run(cfg, m, evs), t), t, ip).score
            == 22 * k + 8 * (n - k) + 9 * k' + 2 * (n' - k') + OtherWeights(evs, ip)
  {
    ScoreIsSumOfWeights(cfg, m, evs, ip, start, t);
    PlainTotalBySignal(evs, ip);
    SeenAreReported(evs, ip, AuthFailure);
    SeenAreReported(evs, ip, NotFound);
  }

  lemma {:induction false} OneSignalOnly(evs: seq<Event>, ip: string, signal: Signal)
    requires signal == AuthFailure || signal == NotFound
    requires forall i :: 0 <= i < |evs| && evs[i].act.Report? && evs[i].act.ip == ip ==> evs[i].act.signal == signal
    ensures OtherWeights(evs, ip) == 0 && Reports(evs, ip, if signal == AuthFailure then NotFound else AuthFailure) == 0
    decreases |evs|
  {
    if evs != [] {
      OneSignalOnly(evs[..|evs| - 1], ip, signal);
    }
  }

  /** n authentication failures, with a subject or without, against k accounts score 22k + 8(n - k). */
  lemma AuthFailuresScore(cfg: Config, m: Store, evs: seq<Event>, ip: string, start: int, t: int)
    requires OneWindow(cfg, m, evs, ip, start, t)
    requires forall i :: 0 <= i < |evs| && evs[i].act.Report? && evs[i].act.ip == ip ==> evs[i].act.signal == AuthFailure
    ensures var n, k := Reports(evs, ip, AuthFailure), |SeenDigests(evs, ip, AuthFailure)|;
            Assessment(cfg, Live(Run(cfg, m, evs), t), t, ip).score == 22 * k + 8 * (n - k)
  {
    ScoreBySignals(cfg, m, evs, ip, start, t);
    OneSignalOnly(evs, ip, AuthFailure);
  }

  /** n not-founds over k paths score 9k + 2(n - k). */
  lemma NotFoundsScore(cfg: Config, m: Store, evs: seq<Event>, ip: string, start: int, t: int)
    requires OneWindow(cfg, m, evs, ip, start, t)
    requires forall i :: 0 <= i < |evs| && evs[i].act.Report? && evs[i].act.ip == ip ==> evs[i].act.signal == NotFound
    ensures var n, k := Reports(evs, ip, NotFound), |SeenDigests(evs, ip, NotFound)|;
            Assessment(cfg, Live(Run(cfg, m, evs), t), t, ip).score == 9 * k + 2 * (n - k)
  {
    ScoreBySignals(cfg, m, evs, ip, start, t);
    OneSignalOnly(evs, ip, NotFound);
  }

  lemma {:induction false} SeenAccountsCost(evs: seq<Event>, ip: string)
    ensures PlainTotal(evs, ip) >= 8 * |SeenDigests(evs, ip, AuthFailure)|
    decreases |evs|
  {
    if evs != [] {
      SeenAccountsCost(evs[..|evs| - 1], ip);
    }
  }

  /** Failures against three accounts always cost an address its normal standing, whatever else it does. */
  lemma ThreeFreshAccountsThrottle(cfg: Config, m: Store, evs: seq<Event>, ip: string, start: int, t: int)
    requires cfg.policy == DEFAULT_POLICY && OneWindow(cfg, m, evs, ip, start, t)
    requires |SeenDigests(evs, ip, AuthFailure)| >= 3
    ensures Assessment(cfg, Live(Run(cfg, m, evs), t), t, ip).level != Normal
  {
    ScoreIsSumOfWeights(cfg, m, evs, ip, start, t);
    SeenAccountsCost(evs, ip);
  }

  /** How often the limiter refused an address. */
  function Refusals(evs: seq<Event>, ip: string): nat { Reports(evs, ip, RateLimited) }

  /** Refusals by the limiter, and the spending of a throttled address before them. */
  predicate SpendsOrRefused(act: Action) {
    act.Spend? || (act.Report? && act.signal == RateLimited)
  }

  lemma {:induction false} NoneSeen(evs: seq<Event>, ip: string, signal: Signal)
    requires forall i :: 0 <= i < |evs| ==> !Aimed(evs[i].act, ip, signal)
    ensures SeenDigests(evs, ip, signal) == {}
    decreases |evs|
  {
    if evs != [] {
      NoneSeen(evs[..|evs| - 1], ip, signal);
    }
  }

  lemma {:induction false} RefusalsScore(evs: seq<Event>, ip: string)
    requires forall i :: 0 <= i < |evs| && evs[i].act.About(ip) ==> SpendsOrRefused(evs[i].act)
    ensures ExpectedScore(evs, ip) == Refusals(evs, ip)
    decreases |evs|
  {
    NoneSeen(evs, ip, AuthFailure);
    NoneSeen(evs, ip, NotFound);
    if evs != [] {
      RefusalsScore(evs[..|evs| - 1], ip);
    }
  }

  lemma SpendKeepsBan(cfg: Config, m: Store, now: int, ip: string)
    ensures var m' := Spent(cfg, m, now, ip);
            && (BanKey(ip) in m' <==> BanKey(ip) in m) && (BanKey(ip) in m ==> m'[BanKey(ip)] == m[BanKey(ip)])
  {
    FamiliesDiffer(ip, ip);
  }

  /** One more refusal bans when it brings the score to the threshold. */
  lemma RefusalStep(cfg: Config, m: Store, now: int, act: Action, ip: string, score: int, until: int)
    requires cfg.policy == DEFAULT_POLICY && ip !in cfg.allowlist && until <= now + 900_000
    requires act.About(ip) ==> SpendsOrRefused(act)
    requires ScoreHeld(m, ip, score, until)
    requires BanKey(ip) in m <==> score >= 120
    requires BanKey(ip) in m ==> m[BanKey(ip)].value == m[BanKey(ip)].expiresAt >= until
    ensures var m' := Step(cfg, m, now, act);
            && (BanKey(ip) in m' <==> (if act.Report? && act.ip == ip then score + 1 else score) >= 120)
            && (BanKey(ip) in m' ==> m'[BanKey(ip)].value == m'[BanKey(ip)].expiresAt >= until)
  {
    var m' := Step(cfg, m, now, act);
    if act.About(ip) && act.Spend? {
      SpendKeepsBan(cfg, m, now, ip);
    } else if act.About(ip) {
      FamiliesDiffer(ip, ip);
      if score + 1 >= 120 {
        BanFollowsOffences(cfg, m, now, ip, RateLimited, act.subject);
        BanLengthMonotone(DEFAULT_POLICY, Min(0, ValueOr0(m, OffencesKey(ip)) + 1), ValueOr0(m, OffencesKey(ip)) + 1);
      }
    } else {
      StepIsLocal(cfg, m, now, act, ip);
      var k := BanKey(ip);
      assert Owns(ip, k);
      assert k in m ==> k in Own(ip, m) && Own(ip, m)[k] == m[k];
      assert k in m' ==> k in Own(ip, m') && Own(ip, m')[k] == m'[k];
    }
  }

  lemma {:induction false} RefusalsHold(cfg: Config, m: Store, evs: seq<Event>, ip: string, start: int, t: int)
    requires cfg.policy == DEFAULT_POLICY && OneWindow(cfg, m, evs, ip, start, t)
    requires BanKey(ip) !in m
    requires forall i :: 0 <= i < |evs| && evs[i].act.About(ip) ==> SpendsOrRefused(evs[i].act)
    ensures var r := Live(Run(cfg, m, evs), t);
            && (BanKey(ip) in r <==> Refusals(evs, ip) >= 120)
            && (BanKey(ip) in r ==> r[BanKey(ip)].value == r[BanKey(ip)].expiresAt >= start + 900_000)
    decreases |evs|
  {
    if evs != [] {
      var e, front := evs[|evs| - 1], evs[..|evs| - 1];
      RefusalsHold(cfg, m, front, ip, start, e.at);
      RunHolds(cfg, m, front, ip, start, e.at);
      RefusalsScore(front, ip);
      RefusalStep(cfg, Live(Run(cfg, m, front), e.at), e.at, e.act, ip, Refusals(front, ip), start + 900_000);
    }
  }

  /** Refusals alone, with or without the budget spent on the way, ban exactly when there are 120 in the window. */
  lemma RefusalsBanAtExactly120(cfg: Config, m: Store, evs: seq<Event>, ip: string, start: int, t: int)
    requires cfg.policy == DEFAULT_POLICY && OneWindow(cfg, m, evs, ip, start, t)
    requires t < start + 900_000 && BanKey(ip) !in m
    requires forall i :: 0 <= i < |evs| && evs[i].act.About(ip) ==> SpendsOrRefused(evs[i].act)
    ensures Assessment(cfg, Live(Run(cfg, m, evs), t), t, ip).level == Banned <==> Refusals(evs, ip) >= 120
  {
    RefusalsHold(cfg, m, evs, ip, start, t);
  }
}
