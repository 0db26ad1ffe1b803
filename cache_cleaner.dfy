/**
 * The cleaner of the cache: every task run takes one snapshot of the
 * store's keys and sweeps it with the sampling policy.
 */
module CacheCleaner {
  import opened Outcomes
  import opened SamplingPolicy
  import opened TtlCache

  /**
   * The sweep of one snapshot of the cache: only snapshot keys are removed,
   * and every stored key that has not expired survives it, unexpired.
   */
  function CacheSweep<K(!new), V(!new)>(now: int, s: CacheState<K, V>, keys: seq<K>, numKeyCheck: nat,
                                        percentWaterMark: int, rng: (nat, nat) -> nat, pass: nat): (r: SweepOutcome<CacheState<K, V>>)
    requires 0 < percentWaterMark < 100
    ensures r.state.store.Keys <= s.store.Keys
    ensures s.store.Keys - r.state.store.Keys <= Elements(keys)
    ensures forall k :: k in s.store && !IsExpired(s, k, now) ==> k in r.state.store && !IsExpired(r.state, k, now)
    ensures r.passes >= 1
  {
    OpsRemoveDropsKey<K, V>(now);
    CacheSweepKeepsLive(now, s, keys, numKeyCheck, percentWaterMark, rng, pass);
    Sweep(Ops(now), s, keys, numKeyCheck, percentWaterMark, rng, pass)
  }

  lemma CacheSweepKeepsLive<K(!new), V(!new)>(now: int, s: CacheState<K, V>, keys: seq<K>, numKeyCheck: nat,
                                              percentWaterMark: int, rng: (nat, nat) -> nat, pass: nat)
    requires 0 < percentWaterMark < 100 && RemoveDropsKey(Ops<K, V>(now))
    ensures var r := Sweep(Ops(now), s, keys, numKeyCheck, percentWaterMark, rng, pass);
      forall k :: k in s.store && !IsExpired(s, k, now) ==> k in r.state.store && !IsExpired(r.state, k, now)
  {
    forall k | k in s.store && !IsExpired(s, k, now)
      ensures var r := Sweep(Ops(now), s, keys, numKeyCheck, percentWaterMark, rng, pass);
        k in r.state.store && !IsExpired(r.state, k, now)
    {
      OpsKeepExpiry<K, V>(now, keys, k);
      SweepKeepsLive(Ops(now), s, keys, numKeyCheck, percentWaterMark, rng, pass, k);
    }
  }

  /** `variousttlcache.BackgroundMapCleaner`, once its constructor's checks passed. */
  class BackgroundMapCleaner<K(==, !new), V(!new)> {
    const variousTtlMap: VariousTtlCacheImpl<K, V>
    const settings: CleanerSettings

    ghost predicate Valid()
      reads this, variousTtlMap
    {
      Accepted(settings) && variousTtlMap.Valid()
    }

    constructor (variousTtlMap: VariousTtlCacheImpl<K, V>, settings: CleanerSettings)
      requires Accepted(settings) && variousTtlMap.Valid()
      ensures Valid() && this.variousTtlMap == variousTtlMap && this.settings == settings
    {
      this.variousTtlMap := variousTtlMap;
      this.settings := settings;
    }

    /** `checkRandomKey`: probe one key, remove it if it has expired, and say whether it had. */
    method CheckRandomKey(keys: seq<K>, draw: nat, now: int) returns (expired: bool, evicted: bool)
      requires |keys| >= 1
      modifies variousTtlMap
      ensures var p := Probe(Ops(now), old(variousTtlMap.Abs()), keys, draw);
        variousTtlMap.Abs() == p.state && expired == p.expired && evicted == p.evicted
    {
      var num := RandomIndex(|keys|, draw);
      var key := keys[num];
      expired := variousTtlMap.CheckExpired(key, now);
      evicted := false;
      if expired {
        var previous := variousTtlMap.Remove(key);
        evicted := previous.Some?;
      }
    }

    /**
     * `tryRemoveKeys`: `min(numKeyCheck, |keys|)` probes; returns the count
     * the code keeps and the count of probes that evicted a key still stored.
     */
    method TryRemoveKeys(keys: seq<K>, rng: (nat, nat) -> nat, pass: nat, now: int)
      returns (numRemovedKeys: nat, numEvicted: nat)
      requires Valid()
      modifies variousTtlMap
      ensures Valid()
      ensures var p := Pass(Ops(now), old(variousTtlMap.Abs()), keys, settings.numKeyCheck as nat, rng, pass);
        variousTtlMap.Abs() == p.state && numRemovedKeys == p.removed && numEvicted == p.evicted
      ensures numEvicted <= numRemovedKeys <= ProbeCount(settings.numKeyCheck as nat, |keys|)
    {
      ghost var ops := Ops<K, V>(now);
      ghost var start := variousTtlMap.Abs();
      var numKeyCheck := settings.numKeyCheck as nat;
      ghost var full := Pass(ops, start, keys, numKeyCheck, rng, pass);
      var numAttempt := 0;
      numRemovedKeys, numEvicted := 0, 0;
      while ProcessCondition(numAttempt, |keys|, numKeyCheck)
        invariant Valid()
        invariant numAttempt <= |keys|
        invariant var rest := PassFrom(ops, variousTtlMap.Abs(), keys, numKeyCheck, rng, pass, numAttempt);
          rest.state == full.state && numRemovedKeys + rest.removed == full.removed &&
          numEvicted + rest.evicted == full.evicted
        decreases |keys| - numAttempt
      {
        PassFromStep(ops, variousTtlMap.Abs(), keys, numKeyCheck, rng, pass, numAttempt);
        var expired, evicted := CheckRandomKey(keys, rng(pass, numAttempt), now);
        if expired {
          numRemovedKeys := numRemovedKeys + 1;
        }
        if evicted {
          numEvicted := numEvicted + 1;
        }
        numAttempt := numAttempt + 1;
      }
      PassProbes(ops, start, keys, numKeyCheck, rng, pass);
    }

    /** The do-while of `task`: passes repeat while the evictions of the last one lie between the marks. */
    method CleanSnapshot(keys: seq<K>, rng: (nat, nat) -> nat, now: int) returns (passes: nat)
      requires Valid()
      modifies variousTtlMap
      ensures Valid()
      ensures var r := CacheSweep(now, old(variousTtlMap.Abs()), keys, settings.numKeyCheck as nat, settings.percentWaterMark, rng, 0);
        variousTtlMap.Abs() == r.state && passes == r.passes
    {
      ghost var ops := Ops<K, V>(now);
      OpsRemoveDropsKey<K, V>(now);
      var numKeyCheck := settings.numKeyCheck as nat;
      var percentWaterMark := settings.percentWaterMark;
      ghost var full := CacheSweep(now, variousTtlMap.Abs(), keys, numKeyCheck, percentWaterMark, rng, 0);
      var size := |keys|;
      passes := 0;
      var more := true;
      while more
        invariant Valid()
        invariant more ==>
          var rest := CacheSweep(now, variousTtlMap.Abs(), keys, numKeyCheck, percentWaterMark, rng, passes);
          rest.state == full.state && passes + rest.passes == full.passes
        invariant !more ==> variousTtlMap.Abs() == full.state && passes == full.passes
        decreases if more then LiveCount(ops, variousTtlMap.Abs(), keys) + 1 else 0
      {
        ghost var before := variousTtlMap.Abs();
        PassShrinks(ops, before, keys, numKeyCheck, rng, passes);
        var numRemovedKeys, numEvicted := TryRemoveKeys(keys, rng, passes, now);
        passes := passes + 1;
        more := CheckExcessWaterMark(percentWaterMark, size, numEvicted);
      }
    }

    /**
     * One run of the task: a snapshot of the store's keys, nothing more when
     * it is empty, else its sweep.
     */
    method Task(now: int, rng: (nat, nat) -> nat) returns (passes: nat, ghost keys: seq<K>)
      requires Valid()
      modifies variousTtlMap
      ensures Valid()
      ensures IsSnapshotOf(keys, old(variousTtlMap.store.Keys))
      ensures keys == [] ==> passes == 0 && variousTtlMap.Abs() == old(variousTtlMap.Abs())
      ensures keys != [] ==>
        var r := CacheSweep(now, old(variousTtlMap.Abs()), keys, settings.numKeyCheck as nat, settings.percentWaterMark, rng, 0);
        variousTtlMap.Abs() == r.state && passes == r.passes
      ensures variousTtlMap.store.Keys <= old(variousTtlMap.store.Keys)
    {
      var keysAsArray := Snapshot(variousTtlMap.store.Keys);
      keys := keysAsArray;
      if |keysAsArray| == 0 {
        return 0, keys;
      }
      passes := CleanSnapshot(keysAsArray, rng, now);
    }
  }

  /** The cleaner's `Builder`: every setting starts at 0. */
  class Builder {
    var delayTime: int
    var poolSize: int
    var numKeyCheck: int
    var percentWaterMark: int

    constructor ()
      ensures delayTime == 0 && poolSize == 0 && numKeyCheck == 0 && percentWaterMark == 0
    {
      delayTime := 0;
      poolSize := 0;
      numKeyCheck := 0;
      percentWaterMark := 0;
    }

    function Settings(): CleanerSettings
      reads this
    {
      CleanerSettings(delayTime, poolSize, numKeyCheck, percentWaterMark)
    }

    method SetDelayTime(delayTime: int) returns (self: Builder)
      modifies this
      ensures self == this && Settings() == old(Settings()).(delayTime := delayTime)
    {
      this.delayTime := delayTime;
      self := this;
    }

    method SetPoolSize(poolSize: int) returns (self: Builder)
      modifies this
      ensures self == this && Settings() == old(Settings()).(poolSize := poolSize)
    {
      this.poolSize := poolSize;
      self := this;
    }

    method SetNumKeyCheck(numKeyCheck: int) returns (self: Builder)
      modifies this
      ensures self == this && Settings() == old(Settings()).(numKeyCheck := numKeyCheck)
    {
      this.numKeyCheck := numKeyCheck;
      self := this;
    }

    method SetPercentWaterMark(percentWaterMark: int) returns (self: Builder)
      modifies this
      ensures self == this && Settings() == old(Settings()).(percentWaterMark := percentWaterMark)
    {
      this.percentWaterMark := percentWaterMark;
      self := this;
    }

    /** `build`: `NullPointerException` for a null cache, `IllegalArgumentException` for rejected settings. */
    method Build<K(==, !new), V(!new)>(variousTtlMap: VariousTtlCacheImpl?<K, V>)
      returns (r: Result<BackgroundMapCleaner<K, V>>)
      requires variousTtlMap != null ==> variousTtlMap.Valid()
      ensures variousTtlMap == null ==> r == Err(NullPointer)
      ensures variousTtlMap != null ==> (r.Err? <==> !Accepted(Settings()))
      ensures variousTtlMap != null && r.Err? ==> r.error == IllegalArgument
      ensures r.Ok? ==>
        fresh(r.value) && r.value.Valid() &&
        r.value.variousTtlMap == variousTtlMap && r.value.settings == Settings()
    {
      if variousTtlMap == null {
        return Err(NullPointer);
      }
      var checked := CheckSettings(Settings());
      match checked {
        case Failure(e) =>
          r := Err(e);
        case Success =>
          var cleaner := new BackgroundMapCleaner(variousTtlMap, Settings());
          r := Ok(cleaner);
      }
    }
  }

  /**
   * As the code counts, a pass over the snapshot `[1, 2]` with one probe per
   * pass probes key 1 (the last key is never drawn), and key 1 counts as
   * removed whenever it is expired, including when it is already gone; one
   * of two keys is 50 %, between a water mark of 10 and the red line, so
   * the next pass follows.
   */
  lemma {:induction false} AsWrittenKeepsGoing(t: CacheState<int, int>, rng: (nat, nat) -> nat, pass: nat, fuel: nat)
    requires IsExpired(t, 1, 50)
    ensures !SweepAsWritten(Ops<int, int>(50), t, [1, 2], 1, 10, rng, pass, fuel).finished
    decreases fuel
  {
    if fuel > 0 {
      var ops := Ops<int, int>(50);
      PassFromStep(ops, t, [1, 2], 1, rng, pass, 0);
      var p := Probe(ops, t, [1, 2], rng(pass, 0));
      assert p.index == 0 && p.expired && p.state == Removed(t, 1);
      assert Pass(ops, t, [1, 2], 1, rng, pass).removed == 1;
      assert Pass(ops, t, [1, 2], 1, rng, pass).state == Removed(t, 1);
      WaterMarkIsPercentage(10, 2, 1);
      RemovedIsExpired(t, 1, 50);
      AsWrittenKeepsGoing(Removed(t, 1), rng, pass + 1, fuel - 1);
    }
  }

  /** The store {1: 10, 2: 20} with deadlines {1: 0, 2: 100}, at clock reading 50. */
  function StuckExample(): CacheState<int, int>
  {
    CacheState(map[1 := 10, 2 := 20], map[1 := 0, 2 := 100])
  }

  /**
   * The do-while as written never ends on `StuckExample`: however many
   * passes are allowed, the run is cut short.
   */
  lemma SweepAsWrittenNeverEnds(rng: (nat, nat) -> nat, fuel: nat)
    ensures !SweepAsWritten(Ops<int, int>(50), StuckExample(), [1, 2], 1, 10, rng, 0, fuel).finished
  {
    AsWrittenKeepsGoing(StuckExample(), rng, 0, fuel);
  }

  /** The example after its expired key is gone: {2: 20} with deadline {2: 100}. */
  function CleanedExample(): CacheState<int, int>
  {
    CacheState(map[2 := 20], map[2 := 100])
  }

  /** The first pass over the example evicts key 1. */
  lemma FirstPassEvicts(rng: (nat, nat) -> nat)
    ensures var p := Pass(Ops<int, int>(50), StuckExample(), [1, 2], 1, rng, 0);
      p.state == CleanedExample() && p.evicted == 1
  {
  }

  /** A later pass finds key 1 already gone and evicts nothing. */
  lemma LaterPassEvictsNothing(rng: (nat, nat) -> nat, pass: nat)
    ensures var p := Pass(Ops<int, int>(50), CleanedExample(), [1, 2], 1, rng, pass);
      p.state == CleanedExample() && p.evicted == 0
  {
  }

  /**
   * Counting evictions instead, the same sweep ends after two passes: the
   * first evicts key 1, the second finds nothing left to evict.
   */
  lemma CorrectedSweepEnds(rng: (nat, nat) -> nat)
    ensures CacheSweep(50, StuckExample(), [1, 2], 1, 10, rng, 0) == SweepOutcome(CleanedExample(), 2)
  {
    var ops := Ops<int, int>(50);
    OpsRemoveDropsKey<int, int>(50);
    FirstPassEvicts(rng);
    WaterMarkIsPercentage(10, 2, 1);
    LaterPassEvictsNothing(rng, 1);
    assert !CheckExcessWaterMark(10, 2, 0);
    assert Sweep(ops, CleanedExample(), [1, 2], 1, 10, rng, 1) == SweepOutcome(CleanedExample(), 1);
  }
}
