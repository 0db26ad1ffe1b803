/**
 * The map whose expiries are kept in the sharded index under the key's
 * hash code, as absolute deadlines in nanoseconds; a hash with no deadline
 * reads as 0. The clock is the parameter `now`, the hash code the function
 * `hash`.
 */
module HashTtlMap {
  import opened Outcomes
  import opened SamplingPolicy
  import opened ShardedIndex

  /** The values the map's builder collects, with their defaults in `NewConfig`. */
  datatype MapConfig = MapConfig(defaultTtl: int, cleaningPoolSize: int, numCleaningAttemptsPerSession: int,
                                 waterMarkPercent: int, delayMillis: int)

  function NewConfig(): (c: MapConfig)
    ensures c.defaultTtl == 0 && c.cleaningPoolSize == 1 && c.numCleaningAttemptsPerSession == 10
    ensures c.waterMarkPercent == 10 && c.delayMillis == 1000
  {
    MapConfig(0, 1, 10, 10, 1000)
  }

  /** The settings the map hands to its cleaner's builder. */
  function CleanerSettingsOf(c: MapConfig): CleanerSettings
  {
    CleanerSettings(c.delayMillis, c.cleaningPoolSize, c.numCleaningAttemptsPerSession, c.waterMarkPercent)
  }

  /** The store and the expiry index. */
  datatype HashState<K, V> = HashState(store: map<K, V>, slots: Shards)

  /** `checkExpired`: the clock is past the deadline stored under the key's hash. */
  predicate IsExpired<K, V>(s: HashState<K, V>, hash: K -> int, key: K, now: int)
  {
    now > Lookup(s.slots, hash(key))
  }

  /** The two writes of `put`. */
  function Stored<K, V>(s: HashState<K, V>, hash: K -> int, key: K, value: V, expiry: int): HashState<K, V>
  {
    HashState(s.store[key := value], Assign(s.slots, hash(key), expiry))
  }

  /** The two removals of `remove`. */
  function Removed<K, V>(s: HashState<K, V>, hash: K -> int, key: K): HashState<K, V>
  {
    HashState(s.store - {key}, Erase(s.slots, hash(key)))
  }

  /** `clear`. */
  function Cleared<K, V>(s: HashState<K, V>): HashState<K, V>
  {
    HashState(map[], EmptyShards(|s.slots|))
  }

  /** `get`: an expired key is removed and reads as null, any other key is looked up. */
  function Fetch<K, V>(s: HashState<K, V>, hash: K -> int, key: K, now: int): (HashState<K, V>, Option<V>)
  {
    if IsExpired(s, hash, key, now) then (Removed(s, hash, key), None) else (s, Find(s.store, key))
  }

  /** The operations a cleaner uses, at clock reading `now`. */
  function Ops<K, V>(hash: K -> int, now: int): MapOps<HashState<K, V>, K>
  {
    MapOps((s: HashState<K, V>, k: K) => IsExpired(s, hash, k, now),
           (s: HashState<K, V>, k: K) => Removed(s, hash, k),
           (s: HashState<K, V>) => s.store.Keys)
  }

  /** `remove` drops exactly the key it is given from the store. */
  lemma OpsRemoveDropsKey<K(!new), V(!new)>(hash: K -> int, now: int)
    ensures RemoveDropsKey(Ops<K, V>(hash, now))
  {
  }

  /** No key of `ks` other than `k` has the hash code of `k`. */
  ghost predicate NoSharedHash<K>(hash: K -> int, ks: set<K>, k: K)
  {
    forall o :: o in ks && o != k ==> hash(o) != hash(k)
  }

  /** Removing keys whose hash code differs from that of `k` leaves its expiry alone. */
  lemma OpsKeepExpiry<K(!new), V(!new)>(hash: K -> int, now: int, keys: seq<K>, k: K)
    requires NoSharedHash(hash, Elements(keys), k)
    ensures KeepsExpiry(Ops<K, V>(hash, now), keys, k)
  {
    var ops := Ops<K, V>(hash, now);
    forall t: HashState<K, V>, o: K | o in keys && o != k
      ensures ops.expired(ops.remove(t, o), k) == ops.expired(t, k)
    {
      assert o in Elements(keys);
      assert ops.remove(t, o) == Removed(t, hash, o);
    }
  }

  /** A key whose hash has no deadline counts as expired exactly at positive clock readings. */
  lemma AbsentSlotExpiry<K, V>(s: HashState<K, V>, hash: K -> int, key: K, now: int)
    requires !Holds(s.slots, hash(key))
    ensures IsExpired(s, hash, key, now) <==> now > 0
  {
  }

  /**
   * Round trip of `put` and `get`: a key read back with no expiry in
   * between gives its value until the deadline and null once the clock
   * is past it, and the late read removes it.
   */
  lemma FetchAfterStored<K, V>(s: HashState<K, V>, hash: K -> int, key: K, value: V, expiry: int, now: int)
    ensures var r := Fetch(Stored(s, hash, key, value, expiry), hash, key, now);
      (now <= expiry ==> r.1 == Some(value) && r.0 == Stored(s, hash, key, value, expiry)) &&
      (now > expiry ==> r.1 == None && key !in r.0.store)
  {
  }

  /** A deadline stays put under writes and removals of keys with other hash codes. */
  lemma OtherHashesKeepExpiry<K, V>(s: HashState<K, V>, hash: K -> int, key: K, other: K, value: V, expiry: int, now: int)
    requires hash(other) != hash(key)
    ensures IsExpired(Stored(s, hash, other, value, expiry), hash, key, now) == IsExpired(s, hash, key, now)
    ensures IsExpired(Removed(s, hash, other), hash, key, now) == IsExpired(s, hash, key, now)
  {
  }

  /**
   * Deadlines are shared by hash code: writing or removing one key
   * overwrites or drops the deadline of every key with the same hash code.
   */
  lemma SharedHashSharesExpiry<K, V>(s: HashState<K, V>, hash: K -> int, key: K, other: K, value: V, expiry: int, now: int)
    requires hash(other) == hash(key)
    ensures IsExpired(Stored(s, hash, other, value, expiry), hash, key, now) <==> now > expiry
    ensures IsExpired(Removed(s, hash, other), hash, key, now) <==> now > 0
  {
  }

  /** Removing twice is removing once, and the key is then absent. */
  lemma RemoveIdempotent<K, V>(s: HashState<K, V>, hash: K -> int, key: K)
    ensures Removed(Removed(s, hash, key), hash, key) == Removed(s, hash, key)
    ensures Find(Removed(s, hash, key).store, key) == None
  {
  }

  /** Once expired, a key stays expired as the clock advances. */
  lemma ExpiryMonotone<K, V>(s: HashState<K, V>, hash: K -> int, key: K, now: int, later: int)
    requires IsExpired(s, hash, key, now) && now <= later
    ensures IsExpired(s, hash, key, later)
  {
  }

  /** After `clear` the store is empty and every key reads as expired exactly at positive clock readings. */
  lemma ClearedExpiry<K, V>(s: HashState<K, V>, hash: K -> int, key: K, now: int)
    ensures Cleared(s).store == map[]
    ensures IsExpired(Cleared(s), hash, key, now) <==> now > 0
  {
  }

  /** `variousttlmap.VariousTtlMapImpl`: the store and the sharded expiry index. */
  class VariousTtlMapImpl<K(==), V> {
    var store: map<K, V>
    const ttlMap: PrimitiveMapWrapper
    const defaultTtl: int
    const hash: K -> int

    ghost predicate Valid()
      reads this, ttlMap
    {
      ttlMap.Valid() && defaultTtl > 0
    }

    function Abs(): HashState<K, V>
      reads this, ttlMap
    {
      HashState(store, ttlMap.primitiveMaps)
    }

    /** The private constructor; `Build` makes its argument check. */
    constructor (defaultTtlSeconds: int, hash: K -> int)
      requires defaultTtlSeconds > 0
      ensures Valid() && fresh(ttlMap)
      ensures store == map[] && ttlMap.primitiveMaps == EmptyShards(DefaultBuckets)
      ensures defaultTtl == defaultTtlSeconds * NanosPerSecond && this.hash == hash
    {
      defaultTtl := defaultTtlSeconds * NanosPerSecond;
      store := map[];
      ttlMap := new PrimitiveMapWrapper.Default();
      this.hash := hash;
    }

    method CheckExpired(key: K, now: int) returns (expired: bool)
      requires Valid()
      ensures expired == IsExpired(Abs(), hash, key, now)
    {
      var ttl := ttlMap.Get(hash(key));
      expired := now > ttl;
    }

    method Get(key: K, now: int) returns (value: Option<V>)
      requires Valid()
      modifies this, ttlMap
      ensures Valid()
      ensures (Abs(), value) == Fetch(old(Abs()), hash, key, now)
    {
      var expired := CheckExpired(key, now);
      if expired {
        var _ := Remove(key);
        value := None;
      } else {
        value := Find(store, key);
      }
    }

    method Put(key: K, value: V, now: int) returns (previous: Option<V>)
      requires Valid()
      modifies this, ttlMap
      ensures Valid()
      ensures Abs() == Stored(old(Abs()), hash, key, value, now + defaultTtl)
      ensures previous == Find(old(store), key)
    {
      ttlMap.Put(hash(key), now + defaultTtl);
      previous := Find(store, key);
      store := store[key := value];
    }

    method PutWithTtl(key: K, value: V, ttlSeconds: int, now: int) returns (previous: Option<V>)
      requires Valid()
      modifies this, ttlMap
      ensures Valid()
      ensures Abs() == Stored(old(Abs()), hash, key, value, now + ttlSeconds * NanosPerSecond)
      ensures previous == Find(old(store), key)
    {
      ttlMap.Put(hash(key), now + ttlSeconds * NanosPerSecond);
      previous := Find(store, key);
      store := store[key := value];
    }

    method Remove(key: K) returns (previous: Option<V>)
      requires Valid()
      modifies this, ttlMap
      ensures Valid()
      ensures Abs() == Removed(old(Abs()), hash, key)
      ensures previous == Find(old(store), key)
    {
      ttlMap.Remove(hash(key));
      previous := Find(store, key);
      store := store - {key};
    }

    method Clear()
      requires Valid()
      modifies this, ttlMap
      ensures Valid()
      ensures Abs() == Cleared(old(Abs()))
    {
      store := map[];
      ttlMap.Clear();
    }

    method Size() returns (n: nat)
      ensures n == |store.Keys|
    {
      n := |store|;
    }

    method IsEmpty() returns (empty: bool)
      ensures empty <==> store.Keys == {}
    {
      empty := |store| == 0;
    }
  }

  /**
   * The builder's `build`: the default TTL must be positive, and the
   * cleaner the constructor builds rejects settings it does not accept.
   */
  method Build<K(==), V>(config: MapConfig, hash: K -> int) returns (r: Result<VariousTtlMapImpl<K, V>>)
    ensures r.Err? <==> config.defaultTtl <= 0 || !Accepted(CleanerSettingsOf(config))
    ensures r.Err? ==> r.error == IllegalArgument
    ensures r.Ok? ==> fresh(r.value) && fresh(r.value.ttlMap) && r.value.Valid()
    ensures r.Ok? ==> r.value.store == map[] && r.value.ttlMap.primitiveMaps == EmptyShards(DefaultBuckets)
    ensures r.Ok? ==> r.value.defaultTtl == config.defaultTtl * NanosPerSecond && r.value.hash == hash
  {
    if config.defaultTtl <= 0 {
      return Err(IllegalArgument);
    }
    var m := new VariousTtlMapImpl<K, V>(config.defaultTtl, hash);
    var checked := CheckSettings(CleanerSettingsOf(config));
    if checked.Failure? {
      return Err(checked.error);
    }
    r := Ok(m);
  }
}
