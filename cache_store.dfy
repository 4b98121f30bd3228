/** The process-wide cache the market service reads through: string keys,
    each entry holding a value and the instant it expires, plus the clock the
    store measures expiry against. Time passing and least-recently-used
    eviction are environment actions (`Tick`, `Evict`), so an entry can
    disappear before its TTL runs out but is never visible after it. */
module CacheStore {
  import opened Common

  datatype Entry<V> = Entry(value: V, expiresAt: int)

  /** What a `get` at instant `now` sees: the value of a live entry, or nothing. */
  function LookupIn<V>(entries: map<string, Entry<V>>, now: int, key: string): (r: Option<V>)
    ensures r.Some? <==> key in entries && now < entries[key].expiresAt
    ensures r.Some? ==> r.value == entries[key].value
  {
    if key in entries && now < entries[key].expiresAt then Some(entries[key].value) else None
  }

  /** An entry written with TTL `ttl` is visible exactly until `ttl` milliseconds have passed. */
  lemma SetVisibleUntilExpiry<V>(entries: map<string, Entry<V>>, now: int, key: string, v: V, ttl: nat, later: int)
    requires now <= later
    ensures LookupIn(entries[key := Entry(v, now + ttl)], later, key) == (if later < now + ttl then Some(v) else None)
  {
  }

  /** In the model, `Set` leaves other keys' reads unchanged; an eviction it
      would cause in the real store is the separate action `Cache.Evict`. */
  lemma SetOtherKeyUnchanged<V>(entries: map<string, Entry<V>>, now: int, key: string, e: Entry<V>, other: string)
    requires other != key
    ensures LookupIn(entries[key := e], now, other) == LookupIn(entries, now, other)
  {
  }

  /** An absent key stays absent as time passes, unless something writes it. */
  lemma AbsentStaysAbsent<V>(entries: map<string, Entry<V>>, now: int, later: int, key: string)
    requires now <= later
    requires LookupIn(entries, now, key).None?
    ensures LookupIn(entries, later, key).None?
  {
  }

  class Cache<V> {
    var entries: map<string, Entry<V>>
    var now: int

    constructor (start: int)
      ensures entries == map[] && now == start
    {
      entries := map[];
      now := start;
    }

    function Lookup(key: string): Option<V>
      reads this
    {
      LookupIn(entries, now, key)
    }

    /** `cacheManager.get`: reads without touching the store, so two reads in a row agree. */
    method Get(key: string) returns (r: Option<V>)
      ensures r == LookupIn(entries, now, key)
    {
      if key in entries && now < entries[key].expiresAt {
        r := Some(entries[key].value);
      } else {
        r := None;
      }
    }

    /** `cacheManager.set(key, value, ttl)`: overwrites the key, expiring `ttl` ms from now. */
    method Set(key: string, value: V, ttl: nat)
      requires ttl > 0
      modifies this
      ensures entries == old(entries)[key := Entry(value, old(now) + ttl)]
      ensures now == old(now)
      ensures Lookup(key) == Some(value)
    {
      entries := entries[key := Entry(value, now + ttl)];
    }

    /** The clock moves forward by `elapsed` milliseconds. */
    method Tick(elapsed: nat)
      modifies this
      ensures entries == old(entries) && now == old(now) + elapsed
    {
      now := now + elapsed;
    }

    /** The store drops a key of its own accord (LRU eviction). */
    method Evict(key: string)
      modifies this
      ensures entries == old(entries) - {key} && now == old(now)
      ensures Lookup(key).None?
    {
      entries := entries - {key};
    }
  }
}
