/** The expiring in-memory store of cache.js: entries with an absolute
    expiry time (0 for never), dropped lazily when read after expiry, and
    removed in bulk by key prefix. */
module MemCache {
  import opened Wrappers
  import opened Text

  datatype Entry<T> = Entry(body: T, expires: int)

  /** An entry is live at `now` unless it has a non-zero expiry already
      reached. */
  predicate Live<T>(e: Entry<T>, now: int) {
    !(e.expires != 0 && e.expires <= now)
  }

  /** What `getCache(key)` yields from `entries` at time `now`. */
  function Lookup<T>(entries: map<string, Entry<T>>, key: string, now: int): (r: Option<Entry<T>>)
    ensures r.Some? <==> key in entries && Live(entries[key], now)
    ensures r.Some? ==> r.value == entries[key]
  {
    if key in entries && Live(entries[key], now) then Some(entries[key]) else None
  }

  /** The store after `setCache(key, body, ttlMs)` at time `now`. */
  function Stored<T>(entries: map<string, Entry<T>>, key: string, body: T, ttlMs: int, now: int): map<string, Entry<T>> {
    entries[key := Entry(body, if ttlMs > 0 then now + ttlMs else 0)]
  }

  /** The store after `invalidateCache(prefix)`. */
  function WithoutPrefix<T>(entries: map<string, Entry<T>>, prefix: string): (m: map<string, Entry<T>>)
    ensures forall k :: k in m <==> k in entries && !StartsWith(k, prefix)
    ensures forall k :: k in m ==> m[k] == entries[k]
  {
    map k | k in entries && !StartsWith(k, prefix) :: entries[k]
  }

  class TtlCache<T> {
    var entries: map<string, Entry<T>>

    constructor ()
      ensures entries == map[]
    {
      entries := map[];
    }

    /** `getCache(key)`: a live entry, or null; an expired entry is deleted
        on the way. */
    method Get(key: string, now: int) returns (r: Option<Entry<T>>)
      modifies this
      ensures r == Lookup(old(entries), key, now)
      ensures entries == if key in old(entries) && !Live(old(entries)[key], now) then old(entries) - {key} else old(entries)
    {
      if key !in entries {
        return None;
      }
      var entry := entries[key];
      if entry.expires != 0 && entry.expires <= now {
        entries := entries - {key};
        return None;
      }
      return Some(entry);
    }

    /** `setCache(key, body, ttlMs)`: expires `ttlMs` after `now`, or never
        when `ttlMs` is not positive. */
    method Set(key: string, body: T, ttlMs: int, now: int)
      modifies this
      ensures entries == Stored(old(entries), key, body, ttlMs, now)
    {
      entries := entries[key := Entry(body, if ttlMs > 0 then now + ttlMs else 0)];
    }

    /** `invalidateCache(prefix)`: every key starting with `prefix` removed,
        one at a time while walking the keys. */
    method InvalidatePrefix(prefix: string)
      modifies this
      ensures entries == WithoutPrefix(old(entries), prefix)
    {
      var remaining := entries.Keys;
      while remaining != {}
        invariant remaining <= old(entries).Keys
        invariant entries == map k | k in old(entries) && (k in remaining || !StartsWith(k, prefix)) :: old(entries)[k]
        decreases remaining
      {
        var k :| k in remaining;
        if StartsWith(k, prefix) {
          entries := entries - {k};
        }
        remaining := remaining - {k};
      }
    }
  }

  /** An entry stored with a positive ttl is returned strictly before its
      expiry and not from then on; one stored without a ttl never expires.
      Clock readings (`Date.now()`) are never negative. */
  lemma StoredLifetime<T>(entries: map<string, Entry<T>>, key: string, body: T, ttlMs: int, now: nat, later: int)
    ensures var r := Lookup(Stored(entries, key, body, ttlMs, now), key, later);
            (ttlMs > 0 ==> (r.Some? <==> later < now + ttlMs))
            && (ttlMs <= 0 ==> r == Some(Entry(body, 0)))
            && (r.Some? ==> r.value.body == body)
  {
  }

  /** Setting one key leaves what every other key yields unchanged. */
  lemma StoredOthers<T>(entries: map<string, Entry<T>>, key: string, body: T, ttlMs: int, now: int, other: string, later: int)
    requires other != key
    ensures Lookup(Stored(entries, key, body, ttlMs, now), other, later) == Lookup(entries, other, later)
  {
  }

  /** Invalidating a prefix twice is invalidating it once, and no key with
      the prefix can then be found. */
  lemma WithoutPrefixSettles<T>(entries: map<string, Entry<T>>, prefix: string, key: string, now: int)
    ensures WithoutPrefix(WithoutPrefix(entries, prefix), prefix) == WithoutPrefix(entries, prefix)
    ensures StartsWith(key, prefix) ==> Lookup(WithoutPrefix(entries, prefix), key, now) == None
  {
  }
}
