/**
 * The shared counter cache: keys with an expiry instant in milliseconds, an entry being readable up
 * to and including that instant. The two drivers differ in one point: incrementing re-arms the expiry
 * in the memory driver, while the Redis driver arms it only when the counter starts.
 */
module TtlCache {
  import opened Wrappers

  datatype Driver = Memory | Redis

  datatype Entry = Entry(value: int, expiresAt: int)

  type Store = map<string, Entry>

  /** What can be read at `now`: the specifications below speak of stores of this form only. */
  function Live(m: Store, now: int): Store {
    map k | k in m && now <= m[k].expiresAt :: m[k]
  }

  function Lookup(m: Store, key: string): Option<int> {
    if key in m then Some(m[key].value) else None
  }

  function ValueOr0(m: Store, key: string): int {
    if key in m then m[key].value else 0
  }

  function Put(m: Store, now: int, key: string, value: int, ttl: nat): Store {
    m[key := Entry(value, now + ttl * 1000)]
  }

  /** The expiry of a counter after an increment at `now`. */
  function Rearmed(d: Driver, m: Store, now: int, key: string, ttl: nat): int {
    if d.Redis? && key in m then m[key].expiresAt else now + ttl * 1000
  }

  /** A counter raised by `amount`, in one step. */
  function Raise(d: Driver, m: Store, now: int, key: string, amount: nat, ttl: nat): Store {
    if amount == 0 then m else m[key := Entry(ValueOr0(m, key) + amount, Rearmed(d, m, now, key, ttl))]
  }

  class Cache {
    const driver: Driver
    var entries: Store

    constructor (driver: Driver)
      ensures this.driver == driver && entries == map[]
    {
      this.driver := driver;
      entries := map[];
    }

    /** Reading forgets an expired entry, which no later read can tell. */
    method Get(key: string, now: int) returns (v: Option<int>)
      modifies this
      ensures Live(entries, now) == old(Live(entries, now))
      ensures v == Lookup(Live(entries, now), key)
    {
      if key !in entries {
        return None;
      }
      if now > entries[key].expiresAt {
        entries := entries - {key};
        return None;
      }
      v := Some(entries[key].value);
    }

    method Set(key: string, value: int, ttl: nat, now: int)
      modifies this
      ensures Live(entries, now) == Put(old(Live(entries, now)), now, key, value, ttl)
    {
      entries := entries[key := Entry(value, now + ttl * 1000)];
    }

    method Del(key: string, now: int)
      modifies this
      ensures Live(entries, now) == old(Live(entries, now)) - {key}
    {
      entries := entries - {key};
    }

    method Incr(key: string, ttl: nat, now: int) returns (count: int)
      modifies this
      ensures Live(entries, now) == Raise(driver, old(Live(entries, now)), now, key, 1, ttl)
      ensures count == old(ValueOr0(Live(entries, now), key)) + 1
    {
      var current := Get(key, now);
      match current
      case Some(n) =>
        count := n + 1;
        var expiry := if driver.Redis? then entries[key].expiresAt else now + ttl * 1000;
        entries := entries[key := Entry(count, expiry)];
      case None =>
        count := 1;
        entries := entries[key := Entry(count, now + ttl * 1000)];
    }
  }

  lemma LiveLater(m: Store, now: int, later: int)
    requires now <= later
    ensures Live(Live(m, now), later) == Live(m, later)
  {
  }
}
