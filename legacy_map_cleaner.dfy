/**
 * The older cleaner of the hash-keyed map: one class that is a
 * single-worker cleaner for a pool of one and a multi-worker cleaner
 * otherwise. In single-worker mode the whole snapshot passes through the
 * queue; in multi-worker mode the chunks of a round do, as in the applied
 * multi-worker cleaner.
 */
module LegacyMapCleaner {
  import opened Outcomes
  import opened SamplingPolicy
  import opened Chunking
  import opened HashTtlMap
  import opened MapCleaning

  class BackgroundMapCleaner<K(==, !new), V(!new)> {
    const variousTtlMap: VariousTtlMapImpl<K, V>
    const settings: CleanerSettings
    const poolSize: nat
    const isMultiThreadCleaner: bool
    var blockingQueue: seq<seq<K>>
    var isInitChunks: bool

    ghost predicate Valid()
      reads this, variousTtlMap, variousTtlMap.ttlMap
    {
      && Accepted(settings)
      && poolSize == settings.poolSize
      && isMultiThreadCleaner == (poolSize > 1)
      && |blockingQueue| <= poolSize
      && (!isMultiThreadCleaner ==> blockingQueue == [])
      && variousTtlMap.Valid()
    }

    function State(): Round<K>
      reads this
    {
      Round(isInitChunks, blockingQueue)
    }

    /** The constructor, after its argument checks passed. */
    constructor (variousTtlMap: VariousTtlMapImpl<K, V>, settings: CleanerSettings)
      requires Accepted(settings) && variousTtlMap.Valid()
      ensures Valid() && this.variousTtlMap == variousTtlMap && this.settings == settings
      ensures isMultiThreadCleaner == (settings.poolSize > 1)
      ensures blockingQueue == [] && !isInitChunks
    {
      this.variousTtlMap := variousTtlMap;
      this.settings := settings;
      poolSize := settings.poolSize;
      isMultiThreadCleaner := settings.poolSize > 1;
      blockingQueue := [];
      isInitChunks := false;
    }

    /** `offerChunk`: append at the tail, or fail with `IllegalStateException` when the queue is full. */
    method OfferChunk(chunk: seq<K>) returns (result: Outcome)
      requires |blockingQueue| <= poolSize
      modifies this
      ensures result.Success? <==> |old(blockingQueue)| < poolSize
      ensures result.Success? ==> blockingQueue == old(blockingQueue) + [chunk]
      ensures result.Failure? ==> result.error == IllegalState && blockingQueue == old(blockingQueue)
      ensures |blockingQueue| <= poolSize && isInitChunks == old(isInitChunks)
    {
      if |blockingQueue| < poolSize {
        blockingQueue := blockingQueue + [chunk];
        result := Success;
      } else {
        result := Failure(IllegalState);
      }
    }

    /**
     * `initAndPutChunks` (multi-worker mode): split a snapshot of the store
     * and offer every chunk into a queue emptied of an earlier round's
     * leftovers.
     */
    method InitAndPutChunks() returns (ghost keys: seq<K>)
      requires Valid() && isMultiThreadCleaner
      modifies this
      ensures Valid() && isInitChunks == old(isInitChunks)
      ensures IsSnapshotOf(keys, variousTtlMap.store.Keys)
      ensures blockingQueue == Chunks(keys, poolSize)
    {
      var snapshot := Snapshot(variousTtlMap.store.Keys);
      keys := snapshot;
      var chunks := BuildChunks(snapshot, poolSize);
      blockingQueue := [];
      for i := 0 to |chunks|
        invariant blockingQueue == chunks[..i]
        invariant isInitChunks == old(isInitChunks)
      {
        var result := OfferChunk(chunks[i]);
        assert chunks[..i + 1] == chunks[..i] + [chunks[i]];
      }
      assert chunks[..|chunks|] == chunks;
    }

    /**
     * `getKeys`: in single-worker mode the snapshot of the whole store is
     * offered and polled straight back; in multi-worker mode the round's
     * chunks are built once and polled one by one.
     */
    method GetKeys() returns (chunk: Option<seq<K>>, ghost keys: seq<K>)
      requires Valid()
      modifies this
      ensures Valid()
      ensures !isMultiThreadCleaner ==>
        chunk == Some(keys) && IsSnapshotOf(keys, variousTtlMap.store.Keys) && State() == old(State())
      ensures isMultiThreadCleaner ==>
        (State(), chunk) == Chunking.GetKeys(old(State()), keys, poolSize) &&
        (!old(isInitChunks) ==> IsSnapshotOf(keys, variousTtlMap.store.Keys))
    {
      keys := [];
      if !isMultiThreadCleaner {
        var snapshot := Snapshot(variousTtlMap.store.Keys);
        keys := snapshot;
        var offered := OfferChunk(snapshot);
      } else if !isInitChunks {
        keys := InitAndPutChunks();
        isInitChunks := true;
      }
      if blockingQueue == [] {
        chunk := None;
      } else {
        chunk := Some(blockingQueue[0]);
        blockingQueue := blockingQueue[1..];
      }
    }

    /** The lists still to be handed out: the one just polled, if any, then the queue. */
    ghost function Pending(chunk: Option<seq<K>>): seq<seq<K>>
      reads this
    {
      if chunk.Some? then [chunk.value] + blockingQueue else blockingQueue
    }

    /**
     * The task's loop in single-worker mode: `getKeys` hands back a fresh
     * snapshot each time, swept until one is empty; the model stops after
     * `maxRounds` sweeps. `rounds` are the snapshots swept.
     */
    method SweepSnapshots(now: int, rngs: nat -> ((nat, nat) -> nat), maxRounds: nat) returns (exit: TaskExit, ghost rounds: seq<seq<K>>)
      requires Valid() && !isMultiThreadCleaner
      modifies this, variousTtlMap, variousTtlMap.ttlMap
      ensures Valid() && State() == old(State())
      ensures variousTtlMap.Abs() ==
        HashSweeps(variousTtlMap.hash, now, old(variousTtlMap.Abs()), rounds, settings.numKeyCheck as nat, settings.percentWaterMark, rngs)
      ensures SnapshotRounds(variousTtlMap.hash, now, old(variousTtlMap.Abs()), rounds, settings.numKeyCheck as nat, settings.percentWaterMark, rngs)
      ensures exit == EmptyKeys || exit == OutOfRounds
      ensures exit == EmptyKeys <==> variousTtlMap.store.Keys == {}
      ensures exit == OutOfRounds ==> |rounds| == maxRounds
    {
      ghost var start := variousTtlMap.Abs();
      var numKeyCheck := settings.numKeyCheck as nat;
      rounds := [];
      var round: nat := 0;
      while true
        invariant Valid() && State() == old(State())
        invariant round == |rounds| <= maxRounds
        invariant variousTtlMap.Abs() == HashSweeps(variousTtlMap.hash, now, start, rounds, numKeyCheck, settings.percentWaterMark, rngs)
        invariant SnapshotRounds(variousTtlMap.hash, now, start, rounds, numKeyCheck, settings.percentWaterMark, rngs)
        decreases maxRounds - round
      {
        var chunk, keys := GetKeys();
        var list := chunk.value;
        if |list| == 0 {
          exit := EmptyKeys;
          break;
        }
        assert list[0] in variousTtlMap.store.Keys;
        if round == maxRounds {
          exit := OutOfRounds;
          break;
        }
        SnapshotRoundsSnoc(variousTtlMap.hash, now, start, rounds, list, numKeyCheck, settings.percentWaterMark, rngs);
        SweepRound(variousTtlMap, start, rounds, round, list, numKeyCheck, settings.percentWaterMark, rngs, now);
        rounds := rounds + [list];
        round := round + 1;
      }
    }

    /** `getKeys` once the round's chunks are built: a poll of the queue, which the chunk returned leaves. */
    method PollChunk() returns (chunk: Option<seq<K>>)
      requires Valid() && isInitChunks && isMultiThreadCleaner
      modifies this
      ensures Valid() && isInitChunks
      ensures Pending(chunk) == old(blockingQueue)
      ensures chunk.None? ==> blockingQueue == []
    {
      ghost var queue := blockingQueue;
      ghost var snapshot;
      chunk, snapshot := GetKeys();
      assert Pending(chunk) == queue by {
        if queue != [] {
          assert queue == [queue[0]] + queue[1..];
        }
      }
    }

    /**
     * The task's loop in multi-worker mode once the flag is up: sweep the
     * chunk just polled and poll the next, until a poll returns null or an
     * empty chunk. `chunks` are the chunks swept.
     */
    method SweepChunks(first: Option<seq<K>>, now: int, rngs: nat -> ((nat, nat) -> nat)) returns (exit: TaskExit, ghost chunks: seq<seq<K>>)
      requires Valid() && isMultiThreadCleaner && isInitChunks
      requires first.None? ==> blockingQueue == []
      modifies this, variousTtlMap, variousTtlMap.ttlMap
      ensures Valid() && isInitChunks
      ensures exit == NullKeys || exit == EmptyKeys
      ensures old(Pending(first)) == chunks + (if exit == EmptyKeys then [[]] else []) + blockingQueue
      ensures exit == NullKeys ==> blockingQueue == []
      ensures [] !in chunks
      ensures variousTtlMap.Abs() ==
        HashSweeps(variousTtlMap.hash, now, old(variousTtlMap.Abs()), chunks, settings.numKeyCheck as nat, settings.percentWaterMark, rngs)
    {
      ghost var start := variousTtlMap.Abs();
      ghost var pending := Pending(first);
      var numKeyCheck := settings.numKeyCheck as nat;
      var chunk := first;
      chunks := [];
      var count: nat := 0;
      while chunk.Some? && chunk.value != []
        invariant Valid() && isInitChunks
        invariant count == |chunks|
        invariant pending == chunks + Pending(chunk)
        invariant chunk.None? ==> blockingQueue == []
        invariant [] !in chunks
        invariant variousTtlMap.Abs() == HashSweeps(variousTtlMap.hash, now, start, chunks, numKeyCheck, settings.percentWaterMark, rngs)
        decreases |Pending(chunk)|
      {
        SweepRound(variousTtlMap, start, chunks, count, chunk.value, numKeyCheck, settings.percentWaterMark, rngs, now);
        ghost var queue := blockingQueue;
        ConcatAssociates(chunks, [chunk.value], queue);
        chunks := chunks + [chunk.value];
        count := count + 1;
        chunk := PollChunk();
      }
      exit := if chunk.None? then NullKeys else EmptyKeys;
    }

    /**
     * One run of the task: take key lists and sweep them until `getKeys`
     * returns null or an empty list. `lists` are the lists swept, in order;
     * the map is what their sweeps leave. In single-worker mode every list is
     * a fresh snapshot and the model stops after `maxRounds` sweeps; a stored
     * key that has not expired, and whose hash code no other stored key
     * shares, keeps every snapshot non-empty, so the run only ends at the
     * bound. In multi-worker mode `round` is the queue the run polls from
     * (the queue as it was when the flag was up, else the chunks of `keys`, a
     * snapshot of the store), the lists are its heads in order, and the flag
     * is lowered at the end when `noArrivedParties` says the worker was the
     * last one.
     */
    method Task(now: int, rngs: nat -> ((nat, nat) -> nat), noArrivedParties: bool, maxRounds: nat)
      returns (exit: TaskExit, ghost keys: seq<K>, ghost round: seq<seq<K>>, ghost lists: seq<seq<K>>)
      requires Valid()
      modifies this, variousTtlMap, variousTtlMap.ttlMap
      ensures Valid()
      ensures variousTtlMap.Abs() ==
        HashSweeps(variousTtlMap.hash, now, old(variousTtlMap.Abs()), lists, settings.numKeyCheck as nat, settings.percentWaterMark, rngs)
      ensures variousTtlMap.store.Keys <= old(variousTtlMap.store.Keys)
      ensures !isMultiThreadCleaner ==>
        && SnapshotRounds(variousTtlMap.hash, now, old(variousTtlMap.Abs()), lists, settings.numKeyCheck as nat, settings.percentWaterMark, rngs)
        && (exit == EmptyKeys || exit == OutOfRounds)
        && (exit == EmptyKeys <==> variousTtlMap.store.Keys == {})
        && (exit == OutOfRounds ==> |lists| == maxRounds)
        && State() == old(State())
      ensures !isMultiThreadCleaner ==> forall k ::
        (k in old(variousTtlMap.store) && !IsExpired(old(variousTtlMap.Abs()), variousTtlMap.hash, k, now) &&
         NoSharedHash(variousTtlMap.hash, old(variousTtlMap.store.Keys), k)) ==> exit == OutOfRounds
      ensures isMultiThreadCleaner ==>
        && (exit == NullKeys || exit == EmptyKeys)
        && (old(isInitChunks) ==> round == old(blockingQueue))
        && (!old(isInitChunks) ==> IsSnapshotOf(keys, old(variousTtlMap.store.Keys)) && round == Chunks(keys, poolSize))
        && round == lists + (if exit == EmptyKeys then [[]] else []) + blockingQueue
        && (exit == NullKeys ==> blockingQueue == [])
        && [] !in lists
        && isInitChunks == !noArrivedParties
    {
      keys, round := [], [];
      if !isMultiThreadCleaner {
        ghost var start := variousTtlMap.Abs();
        exit, lists := SweepSnapshots(now, rngs, maxRounds);
        forall k | k in start.store && !IsExpired(start, variousTtlMap.hash, k, now) && NoSharedHash(variousTtlMap.hash, start.store.Keys, k)
          ensures exit == OutOfRounds
        {
          SnapshotRoundsKeepLive(variousTtlMap.hash, now, start, lists, settings.numKeyCheck as nat, settings.percentWaterMark, rngs, k);
        }
      } else {
        var chunk;
        chunk, keys := GetKeys();
        round := Pending(chunk);
        exit, lists := SweepChunks(chunk, now, rngs);
        if noArrivedParties {
          isInitChunks := false;
        }
      }
    }
  }

  /** The legacy `Builder`: every setting starts at 0. */
  class Builder {
    var delayTime: int
    var poolSize: int
    var numKeyCheck: int
    var percentWaterMark: int

    constructor ()
      ensures delayTime == 0 && poolSize == 0 && numKeyCheck == 0 && percentWaterMark == 0
    {
      delayTime := 0;
      poolSize := 0;
      numKeyCheck := 0;
      percentWaterMark := 0;
    }

    function Settings(): CleanerSettings
      reads this
    {
      CleanerSettings(delayTime, poolSize, numKeyCheck, percentWaterMark)
    }

    method SetDelayTime(delayTime: int) returns (self: Builder)
      modifies this
      ensures self == this && Settings() == old(Settings()).(delayTime := delayTime)
    {
      this.delayTime := delayTime;
      self := this;
    }

    method SetPoolSize(poolSize: int) returns (self: Builder)
      modifies this
      ensures self == this && Settings() == old(Settings()).(poolSize := poolSize)
    {
      this.poolSize := poolSize;
      self := this;
    }

    method SetNumKeyCheck(numKeyCheck: int) returns (self: Builder)
      modifies this
      ensures self == this && Settings() == old(Settings()).(numKeyCheck := numKeyCheck)
    {
      this.numKeyCheck := numKeyCheck;
      self := this;
    }

    method SetPercentWaterMark(percentWaterMark: int) returns (self: Builder)
      modifies this
      ensures self == this && Settings() == old(Settings()).(percentWaterMark := percentWaterMark)
    {
      this.percentWaterMark := percentWaterMark;
      self := this;
    }

    /**
     * `build`: `NullPointerException` for a null map, `IllegalArgumentException`
     * for settings the constructor rejects, else a cleaner whose mode
     * follows the pool size.
     */
    method Build<K(==, !new), V(!new)>(variousTtlMap: VariousTtlMapImpl?<K, V>)
      returns (r: Result<BackgroundMapCleaner<K, V>>)
      requires variousTtlMap != null ==> variousTtlMap.Valid()
      ensures variousTtlMap == null ==> r == Err(NullPointer)
      ensures variousTtlMap != null ==> (r.Err? <==> !Accepted(Settings()))
      ensures variousTtlMap != null && r.Err? ==> r.error == IllegalArgument
      ensures r.Ok? ==>
        fresh(r.value) && r.value.Valid() &&
        r.value.variousTtlMap == variousTtlMap && r.value.settings == Settings() &&
        r.value.isMultiThreadCleaner == (poolSize > 1) &&
        r.value.blockingQueue == [] && !r.value.isInitChunks
    {
      if variousTtlMap == null {
        return Err(NullPointer);
      }
      var checked := CheckSettings(Settings());
      match checked {
        case Failure(e) =>
          r := Err(e);
        case Success =>
          var cleaner := new BackgroundMapCleaner(variousTtlMap, Settings());
          r := Ok(cleaner);
      }
    }
  }
}
