/**
 * The cache whose expiries are absolute deadlines in nanoseconds stored
 * under the key itself; a key with no deadline counts as expired. The clock
 * is the parameter `now`.
 */
module TtlCache {
  import opened Outcomes
  import opened SamplingPolicy

  /** The values the cache's builder collects, with their defaults in `NewConfig`. */
  datatype CacheConfig = CacheConfig(defaultTtl: int, clearPoolSize: int, numCheck: int, waterMarkPercent: int, delayMillis: int)

  function NewConfig(): (c: CacheConfig)
    ensures c.defaultTtl == 0 && c.clearPoolSize == 1 && c.numCheck == 0
    ensures c.waterMarkPercent == 0 && c.delayMillis == 0
  {
    CacheConfig(0, 1, 0, 0, 0)
  }

  /** The settings the cache hands to its cleaner's builder. */
  function CleanerSettingsOf(c: CacheConfig): CleanerSettings
  {
    CleanerSettings(c.delayMillis, c.clearPoolSize, c.numCheck, c.waterMarkPercent)
  }

  /** The store and the deadlines, both keyed by key. */
  datatype CacheState<K, V> = CacheState(store: map<K, V>, ttlMap: map<K, int>)

  /** `checkExpired`: no deadline, or the clock is past it. */
  predicate IsExpired<K, V>(s: CacheState<K, V>, key: K, now: int)
  {
    key !in s.ttlMap || now > s.ttlMap[key]
  }

  /** The two writes of `put`. */
  function Stored<K, V>(s: CacheState<K, V>, key: K, value: V, expiry: int): CacheState<K, V>
  {
    CacheState(s.store[key := value], s.ttlMap[key := expiry])
  }

  /** The two removals of `remove`. */
  function Removed<K, V>(s: CacheState<K, V>, key: K): CacheState<K, V>
  {
    CacheState(s.store - {key}, s.ttlMap - {key})
  }

  /** `get`: a stored value whose key has expired is removed and reads as null. */
  function Fetch<K, V>(s: CacheState<K, V>, key: K, now: int): (CacheState<K, V>, Option<V>)
  {
    if key in s.store && IsExpired(s, key, now) then (Removed(s, key), None) else (s, Find(s.store, key))
  }

  /** The operations the cache's cleaner uses, at clock reading `now`. */
  function Ops<K, V>(now: int): MapOps<CacheState<K, V>, K>
  {
    MapOps((s: CacheState<K, V>, k: K) => IsExpired(s, k, now),
           (s: CacheState<K, V>, k: K) => Removed(s, k),
           (s: CacheState<K, V>) => s.store.Keys)
  }

  /** `remove` drops exactly the key it is given from the store. */
  lemma OpsRemoveDropsKey<K(!new), V(!new)>(now: int)
    ensures RemoveDropsKey(Ops<K, V>(now))
  {
    var ops := Ops<K, V>(now);
    forall s: CacheState<K, V>, k: K
      ensures ops.keys(ops.remove(s, k)) == ops.keys(s) - {k}
    {
      assert ops.remove(s, k) == Removed(s, k);
    }
  }

  /** Removing other keys leaves the expiry of `k` alone. */
  lemma OpsKeepExpiry<K(!new), V(!new)>(now: int, keys: seq<K>, k: K)
    ensures KeepsExpiry(Ops<K, V>(now), keys, k)
  {
    var ops := Ops<K, V>(now);
    forall t: CacheState<K, V>, o: K | o in keys && o != k
      ensures ops.expired(ops.remove(t, o), k) == ops.expired(t, k)
    {
      assert ops.remove(t, o) == Removed(t, o);
    }
  }

  /** A removed key has no deadline, so it counts as expired at every clock reading. */
  lemma RemovedIsExpired<K, V>(s: CacheState<K, V>, key: K, now: int)
    ensures IsExpired(Removed(s, key), key, now)
  {
  }

  /** A read of a key with no stored value returns null and changes nothing. */
  lemma FetchMiss<K, V>(s: CacheState<K, V>, key: K, now: int)
    requires key !in s.store
    ensures Fetch(s, key, now) == (s, None)
  {
  }

  /**
   * Round trip of `put` and `get`: the value reads back until its deadline,
   * and once the clock is past it the read returns null and removes the key.
   */
  lemma FetchAfterStored<K, V>(s: CacheState<K, V>, key: K, value: V, expiry: int, now: int)
    ensures var r := Fetch(Stored(s, key, value, expiry), key, now);
      (now <= expiry ==> r.1 == Some(value) && r.0 == Stored(s, key, value, expiry)) &&
      (now > expiry ==> r.1 == None && key !in r.0.store && key !in r.0.ttlMap)
  {
  }

  /** Writes and removals of one key leave every other key's value and deadline alone. */
  lemma OtherKeysUntouched<K, V>(s: CacheState<K, V>, key: K, other: K, value: V, expiry: int, now: int)
    requires other != key
    ensures var w := Stored(s, key, value, expiry);
      Find(w.store, other) == Find(s.store, other) && Find(w.ttlMap, other) == Find(s.ttlMap, other) &&
      IsExpired(w, other, now) == IsExpired(s, other, now)
    ensures var d := Removed(s, key);
      Find(d.store, other) == Find(s.store, other) && Find(d.ttlMap, other) == Find(s.ttlMap, other) &&
      IsExpired(d, other, now) == IsExpired(s, other, now)
  {
  }

  /** Removing twice is removing once. */
  lemma RemoveIdempotent<K, V>(s: CacheState<K, V>, key: K)
    ensures Removed(Removed(s, key), key) == Removed(s, key)
    ensures Find(Removed(s, key).store, key) == None
  {
  }

  /** Once expired, a key stays expired as the clock advances. */
  lemma ExpiryMonotone<K, V>(s: CacheState<K, V>, key: K, now: int, later: int)
    requires IsExpired(s, key, now) && now <= later
    ensures IsExpired(s, key, later)
  {
  }

  /** `variousttlcache.VariousTtlCacheImpl`: the store and the deadlines. */
  class VariousTtlCacheImpl<K(==), V> {
    var store: map<K, V>
    var ttlMap: map<K, int>
    const defaultTtl: int

    ghost predicate Valid()
      reads this
    {
      defaultTtl > 0
    }

    function Abs(): CacheState<K, V>
      reads this
    {
      CacheState(store, ttlMap)
    }

    /** The private constructor; `Build` makes its argument check. */
    constructor (defaultTtlSeconds: int)
      requires defaultTtlSeconds > 0
      ensures Valid() && store == map[] && ttlMap == map[]
      ensures defaultTtl == defaultTtlSeconds * NanosPerSecond
    {
      defaultTtl := defaultTtlSeconds * NanosPerSecond;
      store := map[];
      ttlMap := map[];
    }

    method CheckExpired(key: K, now: int) returns (expired: bool)
      ensures expired == IsExpired(Abs(), key, now)
    {
      var ttl := Find(ttlMap, key);
      expired := ttl.None? || now > ttl.value;
    }

    method Get(key: K, now: int) returns (value: Option<V>)
      modifies this
      ensures (Abs(), value) == Fetch(old(Abs()), key, now)
    {
      value := Find(store, key);
      if value.Some? {
        var expired := CheckExpired(key, now);
        if expired {
          var _ := Remove(key);
          value := None;
        }
      }
    }

    method Put(key: K, value: V, now: int) returns (previous: Option<V>)
      modifies this
      ensures Abs() == Stored(old(Abs()), key, value, now + defaultTtl)
      ensures previous == Find(old(store), key)
    {
      ttlMap := ttlMap[key := now + defaultTtl];
      previous := Find(store, key);
      store := store[key := value];
    }

    method PutWithTtl(key: K, value: V, ttlSeconds: int, now: int) returns (previous: Option<V>)
      modifies this
      ensures Abs() == Stored(old(Abs()), key, value, now + ttlSeconds * NanosPerSecond)
      ensures previous == Find(old(store), key)
    {
      ttlMap := ttlMap[key := now + ttlSeconds * NanosPerSecond];
      previous := Find(store, key);
      store := store[key := value];
    }

    method Remove(key: K) returns (previous: Option<V>)
      modifies this
      ensures Abs() == Removed(old(Abs()), key)
      ensures previous == Find(old(store), key)
    {
      ttlMap := ttlMap - {key};
      previous := Find(store, key);
      store := store - {key};
    }

    method Clear()
      modifies this
      ensures store == map[] && ttlMap == map[]
    {
      store := map[];
      ttlMap := map[];
    }

    method Size() returns (n: nat)
      ensures n == |store.Keys|
    {
      n := |store|;
    }
  }

  /**
   * The builder's `build`: the default TTL must be positive, and the
   * cleaner the constructor builds rejects settings it does not accept.
   */
  method Build<K(==), V>(config: CacheConfig) returns (r: Result<VariousTtlCacheImpl<K, V>>)
    ensures r.Err? <==> config.defaultTtl <= 0 || !Accepted(CleanerSettingsOf(config))
    ensures r.Err? ==> r.error == IllegalArgument
    ensures r.Ok? ==> fresh(r.value) && r.value.Valid() && r.value.store == map[] && r.value.ttlMap == map[]
    ensures r.Ok? ==> r.value.defaultTtl == config.defaultTtl * NanosPerSecond
  {
    if config.defaultTtl <= 0 {
      return Err(IllegalArgument);
    }
    var c := new VariousTtlCacheImpl<K, V>(config.defaultTtl);
    var checked := CheckSettings(CleanerSettingsOf(config));
    if checked.Failure? {
      return Err(checked.error);
    }
    r := Ok(c);
  }
}
