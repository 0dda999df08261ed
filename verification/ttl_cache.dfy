/** The time-to-live cache (`_cache_get`, `_cache_set`): a map from key to (value, expiry instant), expired lazily on read. */
module TtlCache {
  import opened Wrappers

  /** The cache contents: key to (value, expires_at), times in whole seconds. */
  type Entries<V> = map<string, (V, int)>

  /** What a read at `now` returns: the value while `now` has not passed its expiry. */
  function Lookup<V>(m: Entries<V>, key: string, now: int): Option<V> {
    if key in m && now <= m[key].1 then Some(m[key].0) else None
  }

  /** The contents after a read at `now`: an entry found expired is deleted, nothing else changes. */
  function AfterGet<V>(m: Entries<V>, key: string, now: int): Entries<V> {
    if key in m && now > m[key].1 then m - {key} else m
  }

  /** The contents after a write at `now`. */
  function Put<V>(m: Entries<V>, key: string, value: V, ttl: int, now: int): Entries<V> {
    m[key := (value, now + ttl)]
  }

  /** The cache object shared by every fetch path. */
  class Cache<V> {
    var entries: Entries<V>

    constructor ()
      ensures entries == map[]
    {
      entries := map[];
    }

    /** `_cache_get(key)` with the clock read as `now`. */
    method Get(key: string, now: int) returns (r: Option<V>)
      modifies this
      ensures r == Lookup(old(entries), key, now)
      ensures entries == AfterGet(old(entries), key, now)
    {
      if key !in entries {
        return None;
      }
      var (value, expiresAt) := entries[key];
      if now > expiresAt {
        entries := entries - {key};
        return None;
      }
      return Some(value);
    }

    /** `_cache_set(key, value, ttl_seconds)` with the clock read as `now`. */
    method Set(key: string, value: V, ttl: int, now: int)
      modifies this
      ensures entries == Put(old(entries), key, value, ttl, now)
    {
      entries := entries[key := (value, now + ttl)];
    }
  }

  /** A value written at `t` is read back at every instant up to and including `t + ttl`, and the read deletes nothing. */
  lemma ReadYourWrite<V>(m: Entries<V>, key: string, value: V, ttl: int, t: int, now: int)
    requires now <= t + ttl
    ensures Lookup(Put(m, key, value, ttl, t), key, now) == Some(value)
    ensures AfterGet(Put(m, key, value, ttl, t), key, now) == Put(m, key, value, ttl, t)
  {
  }

  /** After `t + ttl` the read returns nothing and deletes the entry, so no later read brings the value back. */
  lemma ExpiredIsGone<V>(m: Entries<V>, key: string, value: V, ttl: int, t: int, now: int, later: int)
    requires now > t + ttl
    ensures Lookup(Put(m, key, value, ttl, t), key, now) == None
    ensures key !in AfterGet(Put(m, key, value, ttl, t), key, now)
    ensures Lookup(AfterGet(Put(m, key, value, ttl, t), key, now), key, later) == None
  {
  }

  /** A value is never served more than `ttl` seconds after it was written. */
  lemma StalenessBound<V>(m: Entries<V>, key: string, value: V, ttl: int, t: int, now: int)
    ensures Lookup(Put(m, key, value, ttl, t), key, now).Some? <==> now <= t + ttl
  {
  }

  /** Reads and writes of one key leave every other key as it was. */
  lemma OtherKeysUnchanged<V>(m: Entries<V>, key: string, other: string, value: V, ttl: int, t: int, now: int)
    requires other != key
    ensures Lookup(Put(m, key, value, ttl, t), other, now) == Lookup(m, other, now)
    ensures (other in Put(m, key, value, ttl, t) <==> other in m)
    ensures other in m ==> Put(m, key, value, ttl, t)[other] == m[other]
    ensures Lookup(AfterGet(m, key, t), other, now) == Lookup(m, other, now)
    ensures (other in AfterGet(m, key, t) <==> other in m)
    ensures other in m ==> AfterGet(m, key, t)[other] == m[other]
  {
  }

  /** Lazy deletion is invisible: what any read at `now` or later sees is the same before and after a read at `now`. */
  lemma EvictionUnobservable<V>(m: Entries<V>, key: string, other: string, now: int, later: int)
    requires now <= later
    ensures Lookup(AfterGet(m, key, now), other, later) == Lookup(m, other, later)
  {
  }
}
