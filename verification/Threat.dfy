/**
 * The adaptive reputation of an address: a weighted, decaying score, a ladder normal / throttled /
 * banned, and bans whose length doubles with each offence up to a cap.
 */
module Threat {
  import opened Wrappers
  import opened Powers
  import opened TtlCache
  import opened Digest

  datatype Signal =
    | WafBlock
    | AuthFailure
    | AuthFailureNewAccount
    | Forbidden
    | NotFound
    | NotFoundNewPath
    | RateLimited
    | ServerError

  function Weight(s: Signal): nat {
    match s
    case WafBlock => 25
    case AuthFailure => 8
    case AuthFailureNewAccount => 22
    case Forbidden => 10
    case NotFound => 2
    case NotFoundNewPath => 9
    case RateLimited => 1
    case ServerError => 3
  }

  datatype Policy = Policy(
    throttleAt: nat,
    banAt: nat,
    windowSeconds: nat,
    banSeconds: nat,
    throttledBudget: nat,
    maxBanSeconds: nat
  )

  const DEFAULT_POLICY := Policy(50, 120, 900, 900, 10, 86_400)

  const OFFENCE_MEMORY_SECONDS: nat := 7 * 24 * 3600
  const COUNTER_SECONDS: nat := 86_400
  const BUDGET_SECONDS: nat := 60

  datatype Config = Config(driver: Driver, policy: Policy, allowlist: set<string>)

  datatype Level = Normal | Throttled | Banned

  datatype Standing = Standing(ip: string, level: Level, score: int, banSecondsRemaining: int, offences: int)

  // ── Cache keys ──

  function ScoreKey(ip: string): string { "threat:score:" + ip }
  function BanKey(ip: string): string { "threat:ban:" + ip }
  function OffencesKey(ip: string): string { "threat:offences:" + ip }
  function BudgetKey(ip: string): string { "threat:budget:" + ip }
  function AccountKey(ip: string, digest: string): string { "threat:acct:" + (ip + ":" + digest) }
  function PathKey(ip: string, digest: string): string { "threat:path:" + (ip + ":" + digest) }

  const BLOCKED_TOTAL := "threat:stat:blocked"
  const BANNED_TOTAL := "threat:stat:banned"

  // ── What each operation does to the readable store at `now` ──

  function Max(a: int, b: int): int { if a < b then b else a }
  function Min(a: int, b: int): int { if a < b then a else b }

  /** Math.ceil(ms / 1000). */
  function CeilSeconds(ms: int): int { -((-ms) / 1000) }

  function Unknown(ip: string): Standing { Standing(ip, Normal, 0, 0, 0) }

  function BanRemaining(m: Store, now: int, ip: string): int {
    if BanKey(ip) in m then Max(0, CeilSeconds(m[BanKey(ip)].value - now)) else 0
  }

  function Judged(p: Policy, m: Store, now: int, ip: string): Standing {
    var score, offences, remaining := ValueOr0(m, ScoreKey(ip)), ValueOr0(m, OffencesKey(ip)), BanRemaining(m, now, ip);
    if remaining > 0 then Standing(ip, Banned, score, remaining, offences)
    else if score >= p.throttleAt then Standing(ip, Throttled, score, 0, offences)
    else Standing(ip, Normal, score, 0, offences)
  }

  function Assessment(cfg: Config, m: Store, now: int, ip: string): Standing {
    if ip in cfg.allowlist then Unknown(ip) else Judged(cfg.policy, m, now, ip)
  }

  /** The key that remembers a subject, for the signals that can sharpen. */
  function SeenKey(ip: string, signal: Signal, subject: Option<Subject>): Option<string> {
    if subject.None? || subject.value == [] then None
    else match signal
      case AuthFailure => Some(AccountKey(ip, DigestOf(subject.value)))
      case NotFound => Some(PathKey(ip, DigestOf(subject.value)))
      case _ => None
  }

  function Sharper(signal: Signal): Signal {
    match signal
    case AuthFailure => AuthFailureNewAccount
    case NotFound => NotFoundNewPath
    case _ => signal
  }

  /** A signal is sharpened when its subject is not remembered. */
  function Effective(m: Store, ip: string, signal: Signal, subject: Option<Subject>): Signal {
    var key := SeenKey(ip, signal, subject);
    if key.Some? && ValueOr0(m, key.value) <= 0 then Sharper(signal) else signal
  }

  function Remembered(cfg: Config, m: Store, now: int, ip: string, signal: Signal, subject: Option<Subject>): Store {
    var key := SeenKey(ip, signal, subject);
    if key.Some? then Raise(cfg.driver, m, now, key.value, 1, cfg.policy.windowSeconds) else m
  }

  function BanLength(p: Policy, offences: int): nat {
    Min(p.maxBanSeconds, p.banSeconds * Pow2(Max(0, offences - 1)))
  }

  function BanPlaced(cfg: Config, m: Store, now: int, ip: string): Store {
    var m1 := Raise(cfg.driver, m, now, OffencesKey(ip), 1, OFFENCE_MEMORY_SECONDS);
    var seconds := BanLength(cfg.policy, ValueOr0(m, OffencesKey(ip)) + 1);
    var m2 := Put(m1, now, BanKey(ip), now + seconds * 1000, seconds);
    Raise(cfg.driver, m2, now, BANNED_TOTAL, 1, COUNTER_SECONDS)
  }

  function Scored(cfg: Config, m: Store, now: int, ip: string, signal: Signal, subject: Option<Subject>): Store {
    Raise(cfg.driver, Remembered(cfg, m, now, ip, signal, subject), now, ScoreKey(ip),
          Weight(Effective(m, ip, signal, subject)), cfg.policy.windowSeconds)
  }

  /** The store after an address did something. */
  function Recorded(cfg: Config, m: Store, now: int, ip: string, signal: Signal, subject: Option<Subject>): Store {
    if ip in cfg.allowlist then m
    else
      var scored := Scored(cfg, m, now, ip, signal, subject);
      if ValueOr0(scored, ScoreKey(ip)) >= cfg.policy.banAt then BanPlaced(cfg, scored, now, ip) else scored
  }

  function BanNowLength(p: Policy, seconds: int): int {
    Min(p.maxBanSeconds, Max(60, seconds))
  }

  function BannedByOperator(cfg: Config, m: Store, now: int, ip: string, seconds: int): Store {
    var capped := BanNowLength(cfg.policy, seconds);
    Raise(cfg.driver, Put(m, now, BanKey(ip), now + capped * 1000, capped), now,
          OffencesKey(ip), 1, OFFENCE_MEMORY_SECONDS)
  }

  function Lifted(m: Store, ip: string): Store {
    m - {BanKey(ip), ScoreKey(ip), OffencesKey(ip), BudgetKey(ip)}
  }

  function Cleared(m: Store, ip: string): Store {
    m - {BanKey(ip), ScoreKey(ip), BudgetKey(ip)}
  }

  function Spent(cfg: Config, m: Store, now: int, ip: string): Store {
    Raise(cfg.driver, m, now, BudgetKey(ip), 1, BUDGET_SECONDS)
  }

  function Noted(cfg: Config, m: Store, now: int): Store {
    Raise(cfg.driver, m, now, BLOCKED_TOTAL, 1, COUNTER_SECONDS)
  }

  class Tracker {
    const cfg: Config
    const cache: Cache

    constructor (cfg: Config, cache: Cache)
      requires cache.driver == cfg.driver
      ensures this.cfg == cfg && this.cache == cache
    {
      this.cfg := cfg;
      this.cache := cache;
    }

    ghost function Readable(now: int): Store
      reads cache
    {
      Live(cache.entries, now)
    }

    method Assess(ip: string, now: int) returns (s: Standing)
      modifies cache
      ensures Readable(now) == old(Readable(now))
      ensures s == Assessment(cfg, Readable(now), now, ip)
    {
      if ip in cfg.allowlist {
        return Standing(ip, Normal, 0, 0, 0);
      }
      var banRaw := cache.Get(BanKey(ip), now);
      var scoreRaw := cache.Get(ScoreKey(ip), now);
      var offencesRaw := cache.Get(OffencesKey(ip), now);
      var score := if scoreRaw.Some? then scoreRaw.value else 0;
      var offences := if offencesRaw.Some? then offencesRaw.value else 0;
      if banRaw.Some? {
        var remaining := Max(0, CeilSeconds(banRaw.value - now));
        if remaining > 0 {
          return Standing(ip, Banned, score, remaining, offences);
        }
      }
      if score >= cfg.policy.throttleAt {
        return Standing(ip, Throttled, score, 0, offences);
      }
      s := Standing(ip, Normal, score, 0, offences);
    }

    method Sharpen(ip: string, signal: Signal, subject: Option<Subject>, now: int) returns (effective: Signal)
      requires cache.driver == cfg.driver
      modifies cache
      ensures effective == Effective(old(Readable(now)), ip, signal, subject)
      ensures Readable(now) == Remembered(cfg, old(Readable(now)), now, ip, signal, subject)
    {
      if subject.None? || subject.value == [] {
        return signal;
      }
      if signal != AuthFailure && signal != NotFound {
        return signal;
      }
      var digest := Hash(subject.value);
      var key := if signal == AuthFailure then AccountKey(ip, digest) else PathKey(ip, digest);
      var seen := cache.Incr(key, cfg.policy.windowSeconds, now);
      if seen > 1 {
        return signal;
      }
      effective := if signal == AuthFailure then AuthFailureNewAccount else NotFoundNewPath;
    }

    /** One increment for each unit of weight amounts to raising the score once by the weight. */
    method AddScore(ip: string, weight: nat, now: int) returns (total: int)
      requires cache.driver == cfg.driver
      modifies cache
      ensures Readable(now) == Raise(cfg.driver, old(Readable(now)), now, ScoreKey(ip), weight, cfg.policy.windowSeconds)
      ensures total == if weight == 0 then 0 else ValueOr0(Readable(now), ScoreKey(ip))
    {
      total := 0;
      ghost var before := Readable(now);
      for i := 0 to weight
        invariant Readable(now) == Raise(cfg.driver, before, now, ScoreKey(ip), i, cfg.policy.windowSeconds)
        invariant total == if i == 0 then 0 else ValueOr0(Readable(now), ScoreKey(ip))
      {
        total := cache.Incr(ScoreKey(ip), cfg.policy.windowSeconds, now);
      }
    }

    method Ban(ip: string, score: int, now: int) returns (s: Standing)
      requires cache.driver == cfg.driver
      modifies cache
      ensures Readable(now) == BanPlaced(cfg, old(Readable(now)), now, ip)
      ensures s.ip == ip && s.level == Banned && s.score == score
      ensures s.offences == old(ValueOr0(Readable(now), OffencesKey(ip))) + 1
      ensures s.banSecondsRemaining == BanLength(cfg.policy, s.offences)
    {
      var offences := cache.Incr(OffencesKey(ip), OFFENCE_MEMORY_SECONDS, now);
      var seconds := Min(cfg.policy.maxBanSeconds, cfg.policy.banSeconds * Pow2(Max(0, offences - 1)));
      var until := now + seconds * 1000;
      cache.Set(BanKey(ip), until, seconds, now);
      var _ := cache.Incr(BANNED_TOTAL, COUNTER_SECONDS, now);
      s := Standing(ip, Banned, score, seconds, offences);
    }

    /** The standing returned tells score and level; ban and offences only when it bans. */
    method Record(ip: string, signal: Signal, subject: Option<Subject>, now: int) returns (s: Standing)
      requires cache.driver == cfg.driver
      modifies cache
      ensures Readable(now) == Recorded(cfg, old(Readable(now)), now, ip, signal, subject)
      ensures s.ip == ip
      ensures ip in cfg.allowlist ==> s == Standing(ip, Normal, 0, 0, 0)
      ensures ip !in cfg.allowlist ==> s.score == ValueOr0(Readable(now), ScoreKey(ip))
      ensures ip !in cfg.allowlist ==>
                s.level == if s.score >= cfg.policy.banAt then Banned
                           else if s.score >= cfg.policy.throttleAt then Throttled else Normal
      ensures s.level == Banned ==>
                && s.offences == ValueOr0(Readable(now), OffencesKey(ip)) == old(ValueOr0(Readable(now), OffencesKey(ip))) + 1
                && s.banSecondsRemaining == BanLength(cfg.policy, s.offences)
      ensures s.level != Banned ==> s.offences == 0 && s.banSecondsRemaining == 0
    {
      if ip in cfg.allowlist {
        return Standing(ip, Normal, 0, 0, 0);
      }
      ghost var before := Readable(now);
      var effective := Sharpen(ip, signal, subject, now);
      var score := AddScore(ip, Weight(effective), now);
      assert Readable(now) == Scored(cfg, before, now, ip, signal, subject);
      if score >= cfg.policy.banAt {
        s := Ban(ip, score, now);
        FamiliesDiffer(ip, ip);
        ScoringKeepsOffences(cfg, before, now, ip, signal, subject);
        return;
      }
      if score >= cfg.policy.throttleAt {
        return Standing(ip, Throttled, score, 0, 0);
      }
      s := Standing(ip, Normal, score, 0, 0);
    }

    method SpendThrottledBudget(ip: string, now: int) returns (within: bool)
      requires cache.driver == cfg.driver
      modifies cache
      ensures Readable(now) == Spent(cfg, old(Readable(now)), now, ip)
      ensures within <==> ValueOr0(Readable(now), BudgetKey(ip)) <= cfg.policy.throttledBudget
    {
      var used := cache.Incr(BudgetKey(ip), BUDGET_SECONDS, now);
      within := used <= cfg.policy.throttledBudget;
    }

    /** Lift a ban and forget the offences behind it; reports the standing that was cleared. */
    method ClearBan(ip: string, now: int) returns (previous: Standing)
      modifies cache
      ensures Readable(now) == Lifted(old(Readable(now)), ip)
      ensures previous == Assessment(cfg, old(Readable(now)), now, ip)
    {
      previous := Assess(ip, now);
      cache.Del(BanKey(ip), now);
      cache.Del(ScoreKey(ip), now);
      cache.Del(OffencesKey(ip), now);
      cache.Del(BudgetKey(ip), now);
    }

    /** Lift a ban, keeping the offences. */
    method Clear(ip: string, now: int)
      modifies cache
      ensures Readable(now) == Cleared(old(Readable(now)), ip)
    {
      cache.Del(BanKey(ip), now);
      cache.Del(ScoreKey(ip), now);
      cache.Del(BudgetKey(ip), now);
    }

    method BanNow(ip: string, seconds: int, now: int) returns (s: Standing)
      requires cache.driver == cfg.driver
      modifies cache
      ensures Readable(now) == BannedByOperator(cfg, old(Readable(now)), now, ip, seconds)
      ensures s.level == Banned && s.banSecondsRemaining == BanNowLength(cfg.policy, seconds)
    {
      var capped := Min(cfg.policy.maxBanSeconds, Max(60, seconds));
      var until := now + capped * 1000;
      cache.Set(BanKey(ip), until, capped, now);
      var offences := cache.Incr(OffencesKey(ip), OFFENCE_MEMORY_SECONDS, now);
      s := Standing(ip, Banned, 0, capped, offences);
    }

    method NoteWafBlock(now: int)
      requires cache.driver == cfg.driver
      modifies cache
      ensures Readable(now) == Noted(cfg, old(Readable(now)), now)
    {
      var _ := cache.Incr(BLOCKED_TOTAL, COUNTER_SECONDS, now);
    }
  }

  // ── The key families ──

  lemma FamiliesDiffer(ip: string, ip': string)
    ensures ScoreKey(ip) != BanKey(ip') && ScoreKey(ip) != OffencesKey(ip') && ScoreKey(ip) != BudgetKey(ip')
    ensures BanKey(ip) != OffencesKey(ip') && BanKey(ip) != BudgetKey(ip') && OffencesKey(ip) != BudgetKey(ip')
    ensures BANNED_TOTAL !in {ScoreKey(ip), BanKey(ip), OffencesKey(ip), BudgetKey(ip)}
    ensures BLOCKED_TOTAL !in {ScoreKey(ip), BanKey(ip), OffencesKey(ip), BudgetKey(ip)}
  {
    FamilyMarks(ip, "");
    FamilyMarks(ip', "");
  }

  lemma ScoringKeepsOffences(cfg: Config, m: Store, now: int, ip: string, signal: Signal, subject: Option<Subject>)
    ensures ValueOr0(Scored(cfg, m, now, ip, signal, subject), OffencesKey(ip)) == ValueOr0(m, OffencesKey(ip))
  {
    FamiliesDiffer(ip, ip);
    var key := SeenKey(ip, signal, subject);
    if key.Some? {
      FamilyMarks(ip, DigestOf(subject.value));
    }
  }

  /** The two characters that tell the families apart. */
  predicate Marked(key: string, a: char, b: char) {
    |key| > 8 && key[7] == a && key[8] == b
  }

  lemma FamilyMarks(ip: string, digest: string)
    ensures Marked(ScoreKey(ip), 's', 'c') && Marked(BanKey(ip), 'b', 'a') && Marked(OffencesKey(ip), 'o', 'f')
    ensures Marked(BudgetKey(ip), 'b', 'u') && Marked(AccountKey(ip, digest), 'a', 'c')
    ensures Marked(PathKey(ip, digest), 'p', 'a') && Marked(BANNED_TOTAL, 's', 't') && Marked(BLOCKED_TOTAL, 's', 't')
  {
  }
}
