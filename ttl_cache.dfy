/**
 * The proxy's in-memory response cache: a map from string keys to entries
 * that remember the cached data, the time it was stored and its time-to-live.
 * Expiry is lazy: a read that finds an entry past its time-to-live removes it.
 * The clock is a parameter (milliseconds, as `Date.now()` gives them).
 */
module TtlCache {
  import opened Js

  datatype Entry<T> = Entry(data: T, timestamp: int, ttl: int)

  /** An entry is still valid while less than `ttl` milliseconds have passed
      since it was stored. */
  predicate Fresh<T>(e: Entry<T>, now: int) {
    now - e.timestamp < e.ttl
  }

  /** `prefix + "_" + identifier`. */
  function CacheKey(prefix: string, identifier: string): (k: string)
    ensures |k| == |prefix| + 1 + |identifier|
    ensures k[..|prefix|] == prefix && k[|prefix|] == '_' && k[|prefix| + 1..] == identifier
  {
    prefix + "_" + identifier
  }

  /** What a read at time `now` returns: the stored data of a valid entry,
      nothing for a missing or expired one. */
  function Lookup<T>(entries: map<string, Entry<T>>, key: string, now: int): (r: Option<T>)
    ensures r.Some? <==> key in entries && Fresh(entries[key], now)
    ensures r.Some? ==> r.value == entries[key].data
  {
    if key in entries && Fresh(entries[key], now) then Some(entries[key].data) else None
  }

  /** The entries after a read at time `now`: a missing or expired entry for
      `key` is gone, and every other key keeps exactly what it had. */
  function AfterLookup<T>(entries: map<string, Entry<T>>, key: string, now: int): (r: map<string, Entry<T>>)
    ensures key in r <==> key in entries && Fresh(entries[key], now)
    ensures key in r ==> r[key] == entries[key]
    ensures forall k :: k != key ==> (k in r <==> k in entries)
    ensures forall k :: k != key && k in r ==> r[k] == entries[k]
  {
    if key in entries && Fresh(entries[key], now) then entries else entries - {key}
  }

  /** A store at time `now` replaces whatever was under `key`. */
  function Store<T>(entries: map<string, Entry<T>>, key: string, data: T, ttl: int, now: int): (r: map<string, Entry<T>>)
    ensures key in r && r[key] == Entry(data, now, ttl)
    ensures r.Keys == entries.Keys + {key}
    ensures forall k :: k != key && k in entries ==> r[k] == entries[k]
  {
    entries[key := Entry(data, now, ttl)]
  }

  /** The process-wide cache object. */
  class Cache<T> {
    var entries: map<string, Entry<T>>

    constructor ()
      ensures entries == map[]
    {
      entries := map[];
    }

    /** Reads `key` at time `now`, purging it when it has expired. */
    method Get(key: string, now: int) returns (r: Option<T>)
      modifies this
      ensures r == Lookup(old(entries), key, now)
      ensures entries == AfterLookup(old(entries), key, now)
    {
      if key in entries && now - entries[key].timestamp < entries[key].ttl {
        r := Some(entries[key].data);
      } else {
        entries := entries - {key};
        r := None;
      }
    }

    /** Stores `data` under `key` at time `now`, overwriting any entry. */
    method Set(key: string, data: T, ttl: int, now: int)
      modifies this
      ensures entries == Store(old(entries), key, data, ttl, now)
    {
      entries := entries[key := Entry(data, now, ttl)];
    }
  }

  /** Keys built from the two prefixes the proxy uses never collide, whatever
      the identifiers. */
  lemma PrefixesDisjoint(a: string, b: string)
    ensures CacheKey("scoreboard", a) != CacheKey("boxscore", b)
  {
    assert CacheKey("scoreboard", a)[0] == 's';
    assert CacheKey("boxscore", b)[0] == 'b';
  }

  /** Under one prefix, the key determines the identifier. */
  lemma {:induction false} CacheKeyInjective(prefix: string, a: string, b: string)
    requires CacheKey(prefix, a) == CacheKey(prefix, b)
    ensures a == b
  {
    assert a == CacheKey(prefix, a)[|prefix| + 1..];
  }

  /** A read right after a store returns what was stored exactly while the
      time-to-live has not run out, and a read of any other key sees what
      it saw before the store. */
  lemma LookupAfterStore<T>(entries: map<string, Entry<T>>, key: string, data: T, ttl: int, at: int, now: int, other: string)
    requires other != key
    ensures Lookup(Store(entries, key, data, ttl, at), key, now) == (if now - at < ttl then Some(data) else None)
    ensures Lookup(Store(entries, key, data, ttl, at), other, now) == Lookup(entries, other, now)
  {
  }

  /** Once a read has missed, the key is absent: a second read at the same
      time misses too and changes nothing more. */
  lemma LookupMissIsStable<T>(entries: map<string, Entry<T>>, key: string, now: int)
    requires Lookup(entries, key, now).None?
    ensures key !in AfterLookup(entries, key, now)
    ensures Lookup(AfterLookup(entries, key, now), key, now).None?
    ensures AfterLookup(AfterLookup(entries, key, now), key, now) == AfterLookup(entries, key, now)
  {
  }
}
