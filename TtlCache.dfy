/**
 * The in-memory cache with per-entry time to live. Expiry is lazy: an entry is checked
 * only when it is read, and an expired entry is deleted by that read. The clock is an
 * explicit `now` argument (milliseconds, as the source's `Date.now()`).
 */
module TtlCache {
  import opened Wrappers

  /** One stored value and the last instant at which it may still be returned. */
  datatype Entry<T> = Entry(value: T, expiresAt: int)

  /** `CACHE_TTL.REGIONS_TREE`: 24 hours in milliseconds. */
  const REGIONS_TREE_TTL: int := 24 * 60 * 60 * 1000

  lemma RegionsTreeTtlIsOneDay()
    ensures REGIONS_TREE_TTL == 86_400_000
  {
  }

  /** An entry is expired only strictly after `expiresAt`. */
  predicate Expired<T>(e: Entry<T>, now: int)
  {
    now > e.expiresAt
  }

  /** What a read of `key` at `now` returns. */
  function Lookup<T>(store: map<string, Entry<T>>, key: string, now: int): (r: Option<T>)
    ensures r.Some? <==> key in store && now <= store[key].expiresAt
    ensures r.Some? ==> r.value == store[key].value
  {
    if key in store && !Expired(store[key], now) then Some(store[key].value) else None
  }

  /** The store after a read of `key` at `now`: the read drops that one entry if it has
      expired, and changes nothing otherwise. */
  function AfterRead<T>(store: map<string, Entry<T>>, key: string, now: int): (s: map<string, Entry<T>>)
    ensures key in store && now > store[key].expiresAt ==> s == store - {key}
    ensures key !in store || now <= store[key].expiresAt ==> s == store
  {
    if key in store && Expired(store[key], now) then store - {key} else store
  }

  /** The store after `set(key, value, ttl)` at `now`. */
  function Stored<T>(store: map<string, Entry<T>>, key: string, value: T, ttl: int, now: int): (s: map<string, Entry<T>>)
    ensures key in s && s[key] == Entry(value, now + ttl)
    ensures s - {key} == store - {key}
  {
    store[key := Entry(value, now + ttl)]
  }

  class Cache<T> {
    /** The source's private `store` map. */
    var store: map<string, Entry<T>>

    constructor ()
      ensures store == map[]
    {
      store := map[];
    }

    /** `get`: the value if present and not expired; an expired entry is deleted. */
    method Get(key: string, now: int) returns (r: Option<T>)
      modifies this
      ensures r == Lookup(old(store), key, now)
      ensures store == AfterRead(old(store), key, now)
    {
      if key !in store {
        return None;
      }
      var entry := store[key];
      if now > entry.expiresAt {
        store := store - {key};
        return None;
      }
      r := Some(entry.value);
    }

    /** `set`: overwrite the entry for `key`, expiring `ttl` ms after `now`. */
    method Set(key: string, value: T, ttl: int, now: int)
      modifies this
      ensures store == Stored(old(store), key, value, ttl, now)
    {
      store := store[key := Entry(value, now + ttl)];
    }

    /** `has`: defined through `get`, so it shares its eviction of an expired entry. */
    method Has(key: string, now: int) returns (b: bool)
      modifies this
      ensures b <==> Lookup(old(store), key, now).Some?
      ensures store == AfterRead(old(store), key, now)
    {
      var v := Get(key, now);
      b := v.Some?;
    }

    /** `delete`: remove `key`, reporting whether it was stored, expired or not. */
    method Delete(key: string) returns (found: bool)
      modifies this
      ensures found <==> key in old(store)
      ensures store == old(store) - {key}
    {
      found := key in store;
      store := store - {key};
    }

    /** `clear`: remove every entry. */
    method Clear()
      modifies this
      ensures store == map[]
    {
      store := map[];
    }
  }

  /** A value set at `t` is returned by every read up to and including `t + ttl`. */
  lemma ReadWithinTtl<T>(store: map<string, Entry<T>>, key: string, value: T, ttl: int, t: int, t': int)
    requires t' <= t + ttl
    ensures Lookup(Stored(store, key, value, ttl, t), key, t') == Some(value)
    ensures AfterRead(Stored(store, key, value, ttl, t), key, t') == Stored(store, key, value, ttl, t)
  {
  }

  /** After `t + ttl` the same read finds nothing and deletes exactly that key. */
  lemma ReadAfterTtl<T>(store: map<string, Entry<T>>, key: string, value: T, ttl: int, t: int, t': int)
    requires t' > t + ttl
    ensures Lookup(Stored(store, key, value, ttl, t), key, t') == None
    ensures AfterRead(Stored(store, key, value, ttl, t), key, t') == store - {key}
  {
  }

  /** A read never changes what a second read at the same instant returns, and a second
      read changes nothing more. */
  lemma ReadIsStable<T>(store: map<string, Entry<T>>, key: string, now: int)
    ensures Lookup(AfterRead(store, key, now), key, now) == Lookup(store, key, now)
    ensures AfterRead(AfterRead(store, key, now), key, now) == AfterRead(store, key, now)
  {
  }

  /** Reading one key never changes what another key reads. */
  lemma ReadIsLocal<T>(store: map<string, Entry<T>>, key: string, other: string, now: int, later: int)
    requires other != key
    ensures Lookup(AfterRead(store, key, now), other, later) == Lookup(store, other, later)
  {
  }

  /** Once expired, an entry stays expired as the clock moves on. */
  lemma ExpiryIsPermanent<T>(store: map<string, Entry<T>>, key: string, now: int, later: int)
    requires now <= later
    requires Lookup(store, key, now).None?
    ensures Lookup(store, key, later).None?
  {
  }

  /** A set/get/has round trip: `set("k", v, 1000)`, then `get("k")` at the same instant
      returns `v`; once the TTL has elapsed, `get("k")` is absent and a
      following `has("k")` is false. */
  method SetGetHasScenario<T>(c: Cache<T>, v: T, t: int, later: int)
    returns (first: Option<T>, second: Option<T>, present: bool)
    requires later > t + 1000
    modifies c
    ensures first == Some(v)
    ensures second == None
    ensures !present
    ensures c.store == old(c.store) - {"k"}
  {
    c.Set("k", v, 1000, t);
    first := c.Get("k", t);
    second := c.Get("k", later);
    present := c.Has("k", later);
  }
}
