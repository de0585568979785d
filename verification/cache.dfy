/**
 * A keyed store whose entries expire a fixed number of seconds after they
 * were written. The wall clock is an explicit `now` argument to every
 * operation that reads it.
 */
module Cache {
  import opened Wrappers

  class TTLCache<V> {
    /** Seconds an entry stays fresh; fixed when the cache is created. */
    const ttl: int
    /** Each key's write time and value. */
    var store: map<string, (real, V)>

    /** The entry stored at `stamp` is still fresh at `now`: its age is at most `ttl`. */
    predicate IsFresh(stamp: real, now: real) {
      now - stamp <= ttl as real
    }

    /** An empty cache with the given lifetime, 60 seconds unless stated. */
    constructor (ttlSeconds: int := 60)
      ensures ttl == ttlSeconds
      ensures store == map[]
    {
      ttl := ttlSeconds;
      store := map[];
    }

    /**
     * The value stored under `key` if it is still fresh at `now`. An absent
     * key and a fresh entry leave the store alone; a stale entry is evicted
     * and reported as absent.
     */
    method Get(key: string, now: real) returns (r: Option<V>)
      modifies this
      ensures key !in old(store) ==> r == None && store == old(store)
      ensures key in old(store) && IsFresh(old(store)[key].0, now) ==>
        r == Some(old(store)[key].1) && store == old(store)
      ensures key in old(store) && !IsFresh(old(store)[key].0, now) ==>
        r == None && store == old(store) - {key}
      ensures r.Some? ==> key in store && store[key].1 == r.value && IsFresh(store[key].0, now)
    {
      if key !in store {
        return None;
      }
      var (stamp, data) := store[key];
      if now - stamp > ttl as real {
        store := store - {key};
        return None;
      }
      return Some(data);
    }

    /** Store `value` under `key`, stamped `now`, replacing any earlier entry. */
    method Set(key: string, value: V, now: real)
      modifies this
      ensures store == old(store)[key := (now, value)]
      ensures store[key] == (now, value)
      ensures forall k :: k != key ==> (k in store <==> k in old(store))
      ensures forall k :: k != key && k in store ==> store[k] == old(store)[k]
    {
      store := store[key := (now, value)];
    }
  }

  /** A cache created without an explicit lifetime keeps entries for 60 seconds and starts empty. */
  method NewDefaultCache<V>() returns (cache: TTLCache<V>)
    ensures fresh(cache)
    ensures cache.ttl == 60 && cache.store == map[]
  {
    cache := new TTLCache();
  }

  /**
   * A value written at `now` and read back at the same `now` is a hit exactly
   * when the lifetime is not negative; with a negative lifetime the entry is
   * already stale and is evicted by the read.
   */
  method SetThenGet<V>(cache: TTLCache<V>, key: string, value: V, now: real) returns (r: Option<V>)
    modifies cache
    ensures cache.ttl >= 0 ==> r == Some(value) && cache.store == old(cache.store)[key := (now, value)]
    ensures cache.ttl < 0 ==> r == None && cache.store == old(cache.store) - {key}
  {
    cache.Set(key, value, now);
    r := cache.Get(key, now);
  }
}
