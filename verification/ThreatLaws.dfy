/** What holds over whole runs of the reputation tracker, and of the limiter that shares its cache. */
module ThreatLaws {
  import opened Wrappers
  import opened TtlCache
  import opened Digest
  import opened Threat
  import opened RateLimit

  // ── Runs ──

  datatype Action =
    | Report(ip: string, signal: Signal, subject: Option<Subject>)
    | Spend(ip: string)
    | Lift(ip: string)
    | Wipe(ip: string)
    | BanByOperator(ip: string, seconds: int)
    | NoteBlock
    | Ask(identity: string, limit: Limit)
  {
    /** Is the action about what is known of this address? */
    predicate About(who: string) {
      !NoteBlock? && !Ask? && ip == who
    }
  }

  datatype Event = Event(at: int, act: Action)

  function Step(cfg: Config, m: Store, now: int, act: Action): Store {
    match act
    case Report(ip, signal, subject) => Recorded(cfg, m, now, ip, signal, subject)
    case Spend(ip) => Spent(cfg, m, now, ip)
    case Lift(ip) => Lifted(m, ip)
    case Wipe(ip) => Cleared(m, ip)
    case BanByOperator(ip, seconds) => BannedByOperator(cfg, m, now, ip, seconds)
    case NoteBlock => Noted(cfg, m, now)
    case Ask(identity, limit) => Asked(cfg.driver, m, now, identity, limit)
  }

  /** The store after a run; between two events time passes and entries expire. */
  function Run(cfg: Config, m: Store, evs: seq<Event>): Store
    decreases |evs|
  {
    if evs == [] then m
    else
      var e := evs[|evs| - 1];
      Step(cfg, Live(Run(cfg, m, evs[..|evs| - 1]), e.at), e.at, e.act)
  }

  /** The events happen in order, none before `start` and none after `end`. */
  ghost predicate InOrder(evs: seq<Event>, start: int, end: int) {
    && start <= end
    && (forall i :: 0 <= i < |evs| ==> start <= evs[i].at <= end)
    && (forall i, j :: 0 <= i < j < |evs| ==> evs[i].at <= evs[j].at)
  }

  // ── Keys: injective within a family, disjoint between families ──

  lemma LastColonSplits(ip: string, d: string, ip': string, d': string)
    requires ':' !in d && ':' !in d'
    requires ip + ":" + d == ip' + ":" + d'
    ensures ip == ip' && d == d'
  {
    var x, x' := ip + ":" + d, ip' + ":" + d';
    assert x[|ip|] == ':' && x'[|ip'|] == ':';
    if |ip| < |ip'| {
      assert false;
    }
    if |ip'| < |ip| {
      assert false;
    }
    assert x[..|ip|] == ip && x'[..|ip|] == ip';
    assert x[|ip| + 1..] == d && x'[|ip| + 1..] == d';
  }

  lemma DropPrefix(p: string, s: string, t: string)
    requires p + s == p + t
    ensures s == t
  {
    assert (p + s)[|p|..] == s && (p + t)[|p|..] == t;
  }

  /** Each family is injective in the address and the digest, for arbitrary address strings. */
  lemma KeysInjective(ip: string, d: string, ip': string, d': string)
    requires ':' !in d && ':' !in d'
    ensures ScoreKey(ip) == ScoreKey(ip') ==> ip == ip'
    ensures BanKey(ip) == BanKey(ip') ==> ip == ip'
    ensures OffencesKey(ip) == OffencesKey(ip') ==> ip == ip'
    ensures BudgetKey(ip) == BudgetKey(ip') ==> ip == ip'
    ensures AccountKey(ip, d) == AccountKey(ip', d') ==> ip == ip' && d == d'
    ensures PathKey(ip, d) == PathKey(ip', d') ==> ip == ip' && d == d'
  {
    if ScoreKey(ip) == ScoreKey(ip') { DropPrefix("threat:score:", ip, ip'); }
    if BanKey(ip) == BanKey(ip') { DropPrefix("threat:ban:", ip, ip'); }
    if OffencesKey(ip) == OffencesKey(ip') { DropPrefix("threat:offences:", ip, ip'); }
    if BudgetKey(ip) == BudgetKey(ip') { DropPrefix("threat:budget:", ip, ip'); }
    if AccountKey(ip, d) == AccountKey(ip', d') {
      DropPrefix("threat:acct:", ip + ":" + d, ip' + ":" + d');
      LastColonSplits(ip, d, ip', d');
    }
    if PathKey(ip, d) == PathKey(ip', d') {
      DropPrefix("threat:path:", ip + ":" + d, ip' + ":" + d');
      LastColonSplits(ip, d, ip', d');
    }
  }

  /** The keys an address can ever use: digests hold no colon. */
  ghost predicate Owns(ip: string, key: string) {
    || key in {ScoreKey(ip), BanKey(ip), OffencesKey(ip), BudgetKey(ip)}
    || exists d :: ':' !in d && (key == AccountKey(ip, d) || key == PathKey(ip, d))
  }

  /** Keys of different addresses never coincide, nor with the global counters. */
  lemma KeysDisjoint(ip: string, ip': string, key: string)
    requires Owns(ip, key) && Owns(ip', key)
    ensures ip == ip' && key != BANNED_TOTAL && key != BLOCKED_TOTAL
  {
    KeysInjective(ip, "", ip', "");
    forall d, d' | ':' !in d && ':' !in d'
      ensures (key in {AccountKey(ip, d), PathKey(ip, d)} && key in {AccountKey(ip', d'), PathKey(ip', d')}) ==> ip == ip'
      ensures Marked(AccountKey(ip, d), 'a', 'c') && Marked(PathKey(ip, d), 'p', 'a')
      ensures Marked(AccountKey(ip', d'), 'a', 'c') && Marked(PathKey(ip', d'), 'p', 'a')
    {
      FamilyMarks(ip, d);
      FamilyMarks(ip', d');
      KeysInjective(ip, d, ip', d');
    }
    FamilyMarks(ip, "");
    FamilyMarks(ip', "");
  }

  /** Nor with what the limiter counts, whatever the identities. */
  lemma LimiterKeysApart(ip: string, key: string, identity: string)
    requires Owns(ip, key) || key == BANNED_TOTAL || key == BLOCKED_TOTAL
    ensures key != RateKey(identity)
  {
    assert |key| > 0 && key[0] == 't';
    assert RateKey(identity)[0] == 'r';
  }

  // ── Isolation ──

  /** The part of a store that belongs to an address. */
  ghost function Own(ip: string, m: Store): Store {
    map k | k in m && Owns(ip, k) :: m[k]
  }

  /** An action changes only keys of its own address. */
  lemma StepIsLocal(cfg: Config, m: Store, now: int, act: Action, ip: string)
    requires !act.About(ip)
    ensures Own(ip, Step(cfg, m, now, act)) == Own(ip, m)
  {
    var m' := Step(cfg, m, now, act);
    forall k | Owns(ip, k)
      ensures k in m' <==> k in m
      ensures k in m ==> m'[k] == m[k]
    {
      KeysDisjoint(ip, ip, k);
      if act.Ask? {
        LimiterKeysApart(ip, k, act.identity);
      } else if !act.NoteBlock? {
        if Owns(act.ip, k) {
          KeysDisjoint(ip, act.ip, k);
          assert false;
        }
        if act.Report? && SeenKey(act.ip, act.signal, act.subject).Some? {
          DigestHasNoColon(act.subject.value);
          assert Owns(act.ip, SeenKey(act.ip, act.signal, act.subject).value);
        }
      }
    }
  }

  /** No run of steps on other addresses changes what belongs to an address. */
  lemma {:induction false} RunIsLocal(cfg: Config, m: Store, evs: seq<Event>, ip: string, start: int, t: int)
    requires InOrder(evs, start, t)
    requires forall i :: 0 <= i < |evs| ==> !evs[i].act.About(ip)
    ensures Own(ip, Live(Run(cfg, m, evs), t)) == Own(ip, Live(m, t))
    decreases |evs|
  {
    if evs != [] {
      var e, front := evs[|evs| - 1], evs[..|evs| - 1];
      RunIsLocal(cfg, m, front, ip, start, e.at);
      var before := Live(Run(cfg, m, front), e.at);
      StepIsLocal(cfg, before, e.at, e.act, ip);
      OwnLater(ip, Step(cfg, before, e.at, e.act), Live(m, e.at), t);
      LiveLater(m, e.at, t);
    }
  }

  lemma OwnLater(ip: string, m: Store, m': Store, t: int)
    requires Own(ip, m) == Own(ip, m')
    ensures Own(ip, Live(m, t)) == Own(ip, Live(m', t))
  {
    forall k | Owns(ip, k)
      ensures k in Live(m, t) <==> k in Live(m', t)
      ensures k in Live(m, t) ==> m[k] == m'[k]
    {
      assert k in m ==> k in Own(ip, m) && Own(ip, m)[k] == m[k];
      assert k in m' ==> k in Own(ip, m') && Own(ip, m')[k] == m'[k];
    }
  }

  lemma OwnDecidesAssessment(cfg: Config, m: Store, m': Store, t: int, ip: string)
    requires Own(ip, m) == Own(ip, m')
    ensures Assessment(cfg, m, t, ip) == Assessment(cfg, m', t, ip)
  {
    forall k | k in {ScoreKey(ip), BanKey(ip), OffencesKey(ip)}
      ensures k in m <==> k in m'
      ensures k in m ==> m[k] == m'[k]
    {
      assert k in m ==> k in Own(ip, m) && Own(ip, m)[k] == m[k];
      assert k in m' ==> k in Own(ip, m') && Own(ip, m')[k] == m'[k];
    }
  }

  /** Whatever happens to other addresses, the assessment of this one is the same. */
  lemma OthersNeverChangeAssessment(cfg: Config, m: Store, evs: seq<Event>, ip: string, start: int, t: int)
    requires InOrder(evs, start, t)
    requires forall i :: 0 <= i < |evs| ==> !evs[i].act.About(ip)
    ensures Assessment(cfg, Live(Run(cfg, m, evs), t), t, ip) == Assessment(cfg, Live(m, t), t, ip)
  {
    RunIsLocal(cfg, m, evs, ip, start, t);
    OwnDecidesAssessment(cfg, Live(Run(cfg, m, evs), t), Live(m, t), t, ip);
  }
}
