/**
 * The map that records, per key, the clock reading of its last write and a
 * relative TTL in nanoseconds; a key missing either counts as expired. The
 * clock is the parameter `now`.
 */
module TimestampTtlMap {
  import opened Outcomes
  import opened SamplingPolicy

  /** The values the map's builder collects; every default is 0. */
  datatype StampConfig = StampConfig(defaultTtl: int, clearPoolSize: int, numCheck: int, waterMarkPercent: int, delayMillis: int)

  function NewConfig(): (c: StampConfig)
    ensures c.defaultTtl == 0 && c.clearPoolSize == 0 && c.numCheck == 0
    ensures c.waterMarkPercent == 0 && c.delayMillis == 0
  {
    StampConfig(0, 0, 0, 0, 0)
  }

  function CleanerSettingsOf(c: StampConfig): CleanerSettings
  {
    CleanerSettings(c.delayMillis, c.clearPoolSize, c.numCheck, c.waterMarkPercent)
  }

  /** The store, the write timestamps and the relative TTLs, all keyed by key. */
  datatype StampState<K, V> = StampState(store: map<K, V>, timestamps: map<K, int>, ttlMap: map<K, int>)

  /** `checkExpired`: no timestamp, no TTL, or more than the TTL has elapsed since the write. */
  predicate IsExpired<K, V>(s: StampState<K, V>, key: K, now: int)
  {
    key !in s.timestamps || key !in s.ttlMap || now - s.timestamps[key] > s.ttlMap[key]
  }

  /** The three writes of `put` at clock reading `now` with a TTL of `ttl` nanoseconds. */
  function Stored<K, V>(s: StampState<K, V>, key: K, value: V, now: int, ttl: int): StampState<K, V>
  {
    StampState(s.store[key := value], s.timestamps[key := now], s.ttlMap[key := ttl])
  }

  /** The three removals of `remove`. */
  function Removed<K, V>(s: StampState<K, V>, key: K): StampState<K, V>
  {
    StampState(s.store - {key}, s.timestamps - {key}, s.ttlMap - {key})
  }

  /** `get`: a stored value whose key has expired is removed and reads as null. */
  function Fetch<K, V>(s: StampState<K, V>, key: K, now: int): (StampState<K, V>, Option<V>)
  {
    if key in s.store && IsExpired(s, key, now) then (Removed(s, key), None) else (s, Find(s.store, key))
  }

  /**
   * The expiry window of `put(k, v, t)` at clock reading `c`: the key is
   * live while at most `t` seconds have elapsed and expired afterwards.
   */
  lemma ExpiryWindow<K, V>(s: StampState<K, V>, key: K, value: V, c: int, ttlSeconds: int, now: int)
    ensures IsExpired(Stored(s, key, value, c, ttlSeconds * NanosPerSecond), key, now) <==>
            now - c > ttlSeconds * NanosPerSecond
  {
  }

  /** Round trip of `put` and `get` within and after the expiry window. */
  lemma FetchAfterStored<K, V>(s: StampState<K, V>, key: K, value: V, c: int, ttl: int, now: int)
    ensures var r := Fetch(Stored(s, key, value, c, ttl), key, now);
      (now - c <= ttl ==> r.1 == Some(value) && r.0 == Stored(s, key, value, c, ttl)) &&
      (now - c > ttl ==> r.1 == None && key !in r.0.store && key !in r.0.timestamps && key !in r.0.ttlMap)
  {
  }

  /** A removed key has neither timestamp nor TTL, so it counts as expired at every clock reading. */
  lemma RemovedIsExpired<K, V>(s: StampState<K, V>, key: K, now: int)
    ensures IsExpired(Removed(s, key), key, now)
  {
  }

  /** Removing twice is removing once. */
  lemma RemoveIdempotent<K, V>(s: StampState<K, V>, key: K)
    ensures Removed(Removed(s, key), key) == Removed(s, key)
    ensures Find(Removed(s, key).store, key) == None
  {
  }

  /** A read of a key with no stored value returns null and changes nothing. */
  lemma FetchMiss<K, V>(s: StampState<K, V>, key: K, now: int)
    requires key !in s.store
    ensures Fetch(s, key, now) == (s, None)
  {
  }

  /** Writes and removals of one key leave every other key's entries and expiry alone. */
  lemma OtherKeysUntouched<K, V>(s: StampState<K, V>, key: K, other: K, value: V, c: int, ttl: int, now: int)
    requires other != key
    ensures IsExpired(Stored(s, key, value, c, ttl), other, now) == IsExpired(s, other, now)
    ensures IsExpired(Removed(s, key), other, now) == IsExpired(s, other, now)
    ensures Find(Stored(s, key, value, c, ttl).store, other) == Find(s.store, other)
    ensures Find(Removed(s, key).store, other) == Find(s.store, other)
  {
  }

  /** `variousttlcache.VariousTtlMapImpl`: the store, the timestamps and the TTLs. */
  class VariousTtlMapImpl<K(==), V> {
    var store: map<K, V>
    var timestamps: map<K, int>
    var ttlMap: map<K, int>
    const defaultTtl: int

    ghost predicate Valid()
      reads this
    {
      defaultTtl > 0
    }

    function Abs(): StampState<K, V>
      reads this
    {
      StampState(store, timestamps, ttlMap)
    }

    /** The private constructor; `Build` makes its argument check. */
    constructor (defaultTtlSeconds: int)
      requires defaultTtlSeconds > 0
      ensures Valid() && store == map[] && timestamps == map[] && ttlMap == map[]
      ensures defaultTtl == defaultTtlSeconds * NanosPerSecond
    {
      defaultTtl := defaultTtlSeconds * NanosPerSecond;
      store := map[];
      timestamps := map[];
      ttlMap := map[];
    }

    method CheckExpired(key: K, now: int) returns (expired: bool)
      ensures expired == IsExpired(Abs(), key, now)
    {
      var keyTimestamp := Find(timestamps, key);
      var ttl := Find(ttlMap, key);
      expired := keyTimestamp.None? || ttl.None? || now - keyTimestamp.value > ttl.value;
    }

    method Get(key: K, now: int) returns (value: Option<V>)
      modifies this
      ensures (Abs(), value) == Fetch(old(Abs()), key, now)
    {
      value := Find(store, key);
      if value.Some? {
        var expired := CheckExpired(key, now);
        if expired {
          var _ := Remove(key);
          value := None;
        }
      }
    }

    method Put(key: K, value: V, now: int) returns (previous: Option<V>)
      modifies this
      ensures Abs() == Stored(old(Abs()), key, value, now, defaultTtl)
      ensures previous == Find(old(store), key)
    {
      timestamps := timestamps[key := now];
      ttlMap := ttlMap[key := defaultTtl];
      previous := Find(store, key);
      store := store[key := value];
    }

    method PutWithTtl(key: K, value: V, ttlSeconds: int, now: int) returns (previous: Option<V>)
      modifies this
      ensures Abs() == Stored(old(Abs()), key, value, now, ttlSeconds * NanosPerSecond)
      ensures previous == Find(old(store), key)
    {
      timestamps := timestamps[key := now];
      ttlMap := ttlMap[key := ttlSeconds * NanosPerSecond];
      previous := Find(store, key);
      store := store[key := value];
    }

    method Remove(key: K) returns (previous: Option<V>)
      modifies this
      ensures Abs() == Removed(old(Abs()), key)
      ensures previous == Find(old(store), key)
    {
      timestamps := timestamps - {key};
      ttlMap := ttlMap - {key};
      previous := Find(store, key);
      store := store - {key};
    }

    method Clear()
      modifies this
      ensures store == map[] && timestamps == map[] && ttlMap == map[]
    {
      timestamps := map[];
      store := map[];
      ttlMap := map[];
    }

    method Size() returns (n: nat)
      ensures n == |store.Keys|
    {
      n := |store|;
    }
  }

  /**
   * The builder's `build`: the default TTL must be positive, and the
   * cleaner's argument checks reject settings they do not accept.
   */
  method Build<K(==), V>(config: StampConfig) returns (r: Result<VariousTtlMapImpl<K, V>>)
    ensures r.Err? <==> config.defaultTtl <= 0 || !Accepted(CleanerSettingsOf(config))
    ensures r.Err? ==> r.error == IllegalArgument
    ensures r.Ok? ==> fresh(r.value) && r.value.Valid()
    ensures r.Ok? ==> r.value.store == map[] && r.value.timestamps == map[] && r.value.ttlMap == map[]
    ensures r.Ok? ==> r.value.defaultTtl == config.defaultTtl * NanosPerSecond
  {
    if config.defaultTtl <= 0 {
      return Err(IllegalArgument);
    }
    var m := new VariousTtlMapImpl<K, V>(config.defaultTtl);
    var checked := CheckSettings(CleanerSettingsOf(config));
    if checked.Failure? {
      return Err(checked.error);
    }
    r := Ok(m);
  }
}
