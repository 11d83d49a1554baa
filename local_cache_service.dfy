/**
 * The server-side volatile cache (LocalCacheService): a map from string keys
 * to boxed values with an expiration instant each, read with a cast to the
 * caller's type, written with last-writer-wins, removed by key or by a
 * wildcard pattern, and swept of expired entries by a timer.
 *
 * The current time is a parameter of every operation that reads the clock.
 * The boxed object is a value of type V together with the name of its
 * run-time type; a read succeeds only when the requested type has that name.
 */
module ServerCache {
  import opened Wrappers
  import opened Clock
  import opened Text
  import CacheKeys

  type TypeName = string

  /** The lifetime of an entry written without an explicit expiration: ten minutes. */
  const DefaultExpiration: TimeSpan := 10 * TicksPerMinute

  datatype CacheItem<V> = CacheItem(value: V, valueType: TypeName, expirationTime: DateTime)

  /** CacheItem.IsExpired: the current time is strictly after the expiration instant. */
  predicate IsExpired<V>(item: CacheItem<V>, now: DateTime) {
    now > item.expirationTime
  }

  // ---------------------------------------------------------------------------
  // The cache operations as functions of the map

  /** What GetAsync<T>(key) returns: the value of an unexpired entry whose type is T, otherwise default. */
  function Lookup<V>(cache: map<string, CacheItem<V>>, key: string, t: TypeName, now: DateTime): Option<V> {
    if key in cache && !IsExpired(cache[key], now) && cache[key].valueType == t
    then Some(cache[key].value)
    else None
  }

  /** The map after GetAsync(key): an expired entry under key is evicted, nothing else changes. */
  function AfterLookup<V>(cache: map<string, CacheItem<V>>, key: string, now: DateTime): map<string, CacheItem<V>> {
    if key in cache && IsExpired(cache[key], now) then cache - {key} else cache
  }

  /** The expiration instant SetAsync computes; None where DateTime.Add would throw. */
  function ExpirationFor(now: DateTime, expiration: Option<TimeSpan>): Option<DateTime> {
    Add(now, if expiration.Some? then expiration.value else DefaultExpiration)
  }

  /** The map after SetAsync: the entry under key is replaced; a failed expiration computation changes nothing. */
  function Stored<V>(cache: map<string, CacheItem<V>>, key: string, value: V, t: TypeName,
                     expiration: Option<TimeSpan>, now: DateTime): map<string, CacheItem<V>> {
    match ExpirationFor(now, expiration)
    case None => cache
    case Some(e) => cache[key := CacheItem(value, t, e)]
  }

  /** The keys RemoveByPatternAsync selects: those containing the pattern with every '*' removed. */
  predicate MatchesPattern(key: string, pattern: string) {
    Contains(key, RemoveAll(pattern, '*'))
  }

  function WithoutMatching<V>(cache: map<string, CacheItem<V>>, pattern: string): map<string, CacheItem<V>> {
    map k | k in cache && !MatchesPattern(k, pattern) :: cache[k]
  }

  function WithoutExpired<V>(cache: map<string, CacheItem<V>>, now: DateTime): map<string, CacheItem<V>> {
    map k | k in cache && !IsExpired(cache[k], now) :: cache[k]
  }

  // ---------------------------------------------------------------------------
  // The service

  class LocalCacheService<V> {
    var cache: map<string, CacheItem<V>>

    constructor()
      ensures cache == map[]
    {
      cache := map[];
    }

    /** GetAsync<T>: a failed cast is caught and reads as default; the entry then stays. */
    method Get(key: string, t: TypeName, now: DateTime) returns (r: Option<V>)
      modifies this
      ensures r == Lookup(old(cache), key, t, now)
      ensures cache == AfterLookup(old(cache), key, now)
    {
      if key in cache {
        var item := cache[key];
        if IsExpired(item, now) {
          cache := cache - {key};
          return None;
        }
        if item.valueType != t {
          return None;
        }
        return Some(item.value);
      }
      return None;
    }

    /** SetAsync<T>: add or overwrite; an expiration outside the DateTime range is caught and nothing is stored. */
    method Set(key: string, value: V, t: TypeName, expiration: Option<TimeSpan>, now: DateTime)
      modifies this
      ensures cache == Stored(old(cache), key, value, t, expiration, now)
    {
      var expirationTime := ExpirationFor(now, expiration);
      if expirationTime.Some? {
        cache := cache[key := CacheItem(value, t, expirationTime.value)];
      }
    }

    /** RemoveAsync */
    method Remove(key: string)
      modifies this
      ensures cache == old(cache) - {key}
    {
      cache := cache - {key};
    }

    /** RemoveByPatternAsync: collect the matching keys, then remove them one by one. */
    method RemoveByPattern(pattern: string)
      modifies this
      ensures cache == WithoutMatching(old(cache), pattern)
    {
      var needle := RemoveAll(pattern, '*');
      var keysToRemove := set k | k in cache && Contains(k, needle);
      var remaining := keysToRemove;
      while remaining != {}
        invariant remaining <= keysToRemove
        invariant forall k :: k in cache <==> k in old(cache) && k !in keysToRemove - remaining
        invariant forall k :: k in cache ==> cache[k] == old(cache)[k]
        decreases remaining
      {
        var key :| key in remaining;
        cache := cache - {key};
        remaining := remaining - {key};
      }
    }

    /** CleanupExpiredItems, the timer callback: collect the expired keys, then remove them one by one. */
    method CleanupExpiredItems(now: DateTime)
      modifies this
      ensures cache == WithoutExpired(old(cache), now)
    {
      var expiredKeys := set k | k in cache && IsExpired(cache[k], now);
      var remaining := expiredKeys;
      while remaining != {}
        invariant remaining <= expiredKeys
        invariant forall k :: k in cache <==> k in old(cache) && k !in expiredKeys - remaining
        invariant forall k :: k in cache ==> cache[k] == old(cache)[k]
        decreases remaining
      {
        var key :| key in remaining;
        cache := cache - {key};
        remaining := remaining - {key};
      }
    }
  }

  // ---------------------------------------------------------------------------
  // Properties

  /** A value set and read back as the same type no later than its expiration is returned. */
  lemma SetThenGet<V>(cache: map<string, CacheItem<V>>, key: string, value: V, t: TypeName,
                      expiration: Option<TimeSpan>, now: DateTime, later: DateTime)
    requires ExpirationFor(now, expiration).Some?
    requires later <= ExpirationFor(now, expiration).value
    ensures Lookup(Stored(cache, key, value, t, expiration, now), key, t, later) == Some(value)
    ensures AfterLookup(Stored(cache, key, value, t, expiration, now), key, later)
            == Stored(cache, key, value, t, expiration, now)
  {
  }

  /** Expiry is strict: an entry is still a hit at its expiration instant and a miss one tick later. */
  lemma ExpiryIsStrict<V>(item: CacheItem<V>)
    requires item.expirationTime < MaxTicks
    ensures !IsExpired(item, item.expirationTime)
    ensures IsExpired(item, item.expirationTime + 1)
  {
  }

  /** Reading an expired key misses and evicts exactly that key. */
  lemma GetExpiredEvicts<V>(cache: map<string, CacheItem<V>>, key: string, t: TypeName, now: DateTime)
    requires key in cache && IsExpired(cache[key], now)
    ensures Lookup(cache, key, t, now) == None
    ensures AfterLookup(cache, key, now) == cache - {key}
  {
  }

  /** Reading an absent key misses and changes nothing. */
  lemma GetAbsentChangesNothing<V>(cache: map<string, CacheItem<V>>, key: string, t: TypeName, now: DateTime)
    requires key !in cache
    ensures Lookup(cache, key, t, now) == None
    ensures AfterLookup(cache, key, now) == cache
  {
  }

  /** Reading an unexpired entry as the wrong type yields default and keeps the entry. */
  lemma GetWrongTypeKeepsEntry<V>(cache: map<string, CacheItem<V>>, key: string, t: TypeName, now: DateTime)
    requires key in cache && !IsExpired(cache[key], now) && cache[key].valueType != t
    ensures Lookup(cache, key, t, now) == None
    ensures AfterLookup(cache, key, now) == cache
  {
  }

  /** Without an expiration the entry lives ten minutes; a later write to the same key wins. */
  lemma SetDefaultsAndOverwrites<V>(cache: map<string, CacheItem<V>>, key: string, v1: V, v2: V, t1: TypeName,
                                    t2: TypeName, e1: Option<TimeSpan>, now: DateTime)
    requires now + DefaultExpiration <= MaxTicks
    ensures ExpirationFor(now, None) == Some(now + 10 * TicksPerMinute)
    ensures ExpirationFor(now, None).Some? ==>
      Stored(Stored(cache, key, v1, t1, e1, now), key, v2, t2, None, now)
      == Stored(cache, key, v2, t2, None, now)
  {
  }

  /** Remove is idempotent, and removing an absent key is a no-op. */
  lemma RemoveIdempotent<V>(cache: map<string, CacheItem<V>>, key: string)
    ensures cache - {key} - {key} == cache - {key}
    ensures key !in cache ==> cache - {key} == cache
    ensures forall k :: k != key && k in cache ==> k in cache - {key} && (cache - {key})[k] == cache[k]
  {
  }

  /** Pattern removal deletes exactly the matching keys and keeps every other entry as it was. */
  lemma RemoveByPatternExact<V>(cache: map<string, CacheItem<V>>, pattern: string)
    ensures forall k :: k in WithoutMatching(cache, pattern) <==> k in cache && !MatchesPattern(k, pattern)
    ensures forall k :: k in WithoutMatching(cache, pattern) ==> WithoutMatching(cache, pattern)[k] == cache[k]
  {
  }

  /** The pattern "*" strips to the empty string, which every key contains: it empties the cache. */
  lemma StarPatternEmpties<V>(cache: map<string, CacheItem<V>>)
    ensures WithoutMatching(cache, "*") == map[]
  {
    assert RemoveAll("*", '*') == [];
    forall k | k in cache ensures MatchesPattern(k, "*") {
      assert [] <= k;
    }
  }

  /** Invalidating with the per-profile pattern drops every profile key and keeps the all-profiles key. */
  lemma ProfilePatternInvalidation<V>(cache: map<string, CacheItem<V>>, id: int)
    ensures CacheKeys.PetProfile(id) !in WithoutMatching(cache, CacheKeys.PetProfilePattern)
    ensures CacheKeys.AllPetProfiles in cache ==>
      CacheKeys.AllPetProfiles in WithoutMatching(cache, CacheKeys.PetProfilePattern)
  {
    CacheKeys.PatternSelectsEveryProfileKey(id);
    CacheKeys.PatternSparesAllProfilesKey();
  }

  /** The sweep removes exactly the expired entries and keeps every other entry with its value. */
  lemma SweepExact<V>(cache: map<string, CacheItem<V>>, now: DateTime)
    ensures forall k :: k in WithoutExpired(cache, now) <==> k in cache && !IsExpired(cache[k], now)
    ensures forall k :: k in WithoutExpired(cache, now) ==> WithoutExpired(cache, now)[k] == cache[k]
  {
  }

  /** A sweep cannot be observed by a read at the same instant: every read returns what it would have. */
  lemma SweepUnobservable<V>(cache: map<string, CacheItem<V>>, now: DateTime, key: string, t: TypeName)
    ensures Lookup(WithoutExpired(cache, now), key, t, now) == Lookup(cache, key, t, now)
    ensures AfterLookup(WithoutExpired(cache, now), key, now) == WithoutExpired(cache, now)
  {
  }
}
