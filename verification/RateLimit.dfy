/** The fixed limiter: requests of one identity are counted in the shared cache, and refused beyond a maximum. */
module RateLimit {
  import opened TtlCache

  datatype Limit = Limit(windowMs: int, max: int)

  const DEFAULT_LIMIT := Limit(60_000, 600)

  function RateKey(identity: string): string { "rl:" + identity }

  /** Math.max(1, Math.ceil(windowMs / 1000)) */
  function TtlSeconds(windowMs: int): (seconds: nat)
    ensures seconds >= 1 && 1000 * seconds >= windowMs
    ensures seconds == 1 || 1000 * (seconds - 1) < windowMs
  {
    var whole := (windowMs + 999) / 1000;
    if whole < 1 then 1 else whole
  }

  /** The readable store once a request has been counted. */
  function Asked(d: Driver, m: Store, now: int, identity: string, limit: Limit): Store {
    Raise(d, m, now, RateKey(identity), 1, TtlSeconds(limit.windowMs))
  }

  /** The next request is within the maximum. */
  predicate Allows(m: Store, identity: string, limit: Limit) {
    ValueOr0(m, RateKey(identity)) + 1 <= limit.max
  }

  /** A request counts whether or not it is allowed. */
  method CheckRateLimit(cache: Cache, identity: string, limit: Limit, now: int) returns (allowed: bool, remaining: int)
    modifies cache
    ensures Live(cache.entries, now) == Asked(cache.driver, old(Live(cache.entries, now)), now, identity, limit)
    ensures allowed <==> Allows(old(Live(cache.entries, now)), identity, limit)
    ensures remaining >= 0 && (allowed ==> remaining == limit.max - ValueOr0(Live(cache.entries, now), RateKey(identity)))
    ensures !allowed ==> remaining == 0
  {
    var count := cache.Incr(RateKey(identity), TtlSeconds(limit.windowMs), now);
    allowed := count <= limit.max;
    remaining := if limit.max - count < 0 then 0 else limit.max - count;
  }
}
