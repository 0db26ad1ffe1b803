/**
 * The applied cleaners of the hash-keyed map: the builder that picks a
 * single-worker or a multi-worker cleaner, and one run of each cleaner's
 * task. Scheduling is not modelled: a task run is a method call, the clock
 * is `now`, and `rngs(round)` is the random source of the snapshot cleaned
 * in round `round` of the run.
 */
module AppliedCleaner {
  import opened Outcomes
  import opened SamplingPolicy
  import opened Chunking
  import opened HashTtlMap
  import opened MapCleaning

  const DefaultPoolSize: int := 1

  /** The kind of cleaner `build` makes. */
  datatype Mode = SingleThread | MultiThread

  /**
   * `build`'s choice and the cleaner constructor's checks: a multi-worker
   * cleaner exactly for a pool of more than one worker, and an argument
   * error for settings the constructor rejects.
   */
  function SelectMode(s: CleanerSettings): (r: Result<Mode>)
    ensures r == Ok(MultiThread) <==> Accepted(s) && s.poolSize > 1
    ensures r == Ok(SingleThread) <==> Accepted(s) && s.poolSize == 1
    ensures r.Err? <==> !Accepted(s)
    ensures r.Err? ==> r.error == IllegalArgument
  {
    var mode := if s.poolSize > DefaultPoolSize then MultiThread else SingleThread;
    match CheckSettings(s)
    case Success => Ok(mode)
    case Failure(e) => Err(e)
  }

  /** `SingleThreadMapCleaner`: each round cleans a fresh snapshot of the whole store. */
  class SingleThreadMapCleaner<K(==, !new), V(!new)> {
    const variousTtlMap: VariousTtlMapImpl<K, V>
    const settings: CleanerSettings

    ghost predicate Valid()
      reads this, variousTtlMap, variousTtlMap.ttlMap
    {
      Accepted(settings) && variousTtlMap.Valid()
    }

    constructor (variousTtlMap: VariousTtlMapImpl<K, V>, settings: CleanerSettings)
      requires Accepted(settings) && variousTtlMap.Valid()
      ensures Valid() && this.variousTtlMap == variousTtlMap && this.settings == settings
    {
      this.variousTtlMap := variousTtlMap;
      this.settings := settings;
    }

    /** The hook before a run: nothing to do. */
    method AdditionalInit()
    {
    }

    /** The hook after a run: nothing to do. */
    method AdditionalFinally()
    {
    }

    /** A fresh list of the store's keys, each once. */
    method GetKeys() returns (keys: seq<K>)
      ensures IsSnapshotOf(keys, variousTtlMap.store.Keys)
      ensures |keys| == |variousTtlMap.store.Keys|
    {
      keys := Snapshot(variousTtlMap.store.Keys);
    }

    /**
     * One run of the task: snapshot, sweep, and again, until a snapshot is
     * empty; the model stops after `maxRounds` sweeps. `rounds` are the
     * snapshots swept, in order; the map is what their sweeps leave. A stored
     * key that has not expired, and whose hash code no other stored key
     * shares, keeps every snapshot non-empty, so the run only ends at the bound.
     */
    method Task(now: int, rngs: nat -> ((nat, nat) -> nat), maxRounds: nat) returns (exit: TaskExit, ghost rounds: seq<seq<K>>)
      requires Valid()
      modifies variousTtlMap, variousTtlMap.ttlMap
      ensures Valid()
      ensures variousTtlMap.Abs() ==
        HashSweeps(variousTtlMap.hash, now, old(variousTtlMap.Abs()), rounds, settings.numKeyCheck as nat, settings.percentWaterMark, rngs)
      ensures SnapshotRounds(variousTtlMap.hash, now, old(variousTtlMap.Abs()), rounds, settings.numKeyCheck as nat, settings.percentWaterMark, rngs)
      ensures variousTtlMap.store.Keys <= old(variousTtlMap.store.Keys)
      ensures exit == EmptyKeys || exit == OutOfRounds
      ensures exit == EmptyKeys <==> variousTtlMap.store.Keys == {}
      ensures exit == OutOfRounds ==> |rounds| == maxRounds
      ensures old(variousTtlMap.store.Keys) == {} ==> variousTtlMap.Abs() == old(variousTtlMap.Abs())
      ensures forall k ::
        (k in old(variousTtlMap.store) && !IsExpired(old(variousTtlMap.Abs()), variousTtlMap.hash, k, now) &&
         NoSharedHash(variousTtlMap.hash, old(variousTtlMap.store.Keys), k)) ==> exit == OutOfRounds
    {
      ghost var start := variousTtlMap.Abs();
      var numKeyCheck := settings.numKeyCheck as nat;
      AdditionalInit();
      rounds := [];
      var round: nat := 0;
      while true
        invariant Valid()
        invariant round == |rounds| <= maxRounds
        invariant variousTtlMap.Abs() == HashSweeps(variousTtlMap.hash, now, start, rounds, numKeyCheck, settings.percentWaterMark, rngs)
        invariant SnapshotRounds(variousTtlMap.hash, now, start, rounds, numKeyCheck, settings.percentWaterMark, rngs)
        invariant variousTtlMap.store.Keys <= old(variousTtlMap.store.Keys)
        invariant old(variousTtlMap.store.Keys) == {} ==> variousTtlMap.Abs() == old(variousTtlMap.Abs())
        decreases maxRounds - round
      {
        var keys := GetKeys();
        if |keys| == 0 {
          exit := EmptyKeys;
          break;
        }
        assert keys[0] in variousTtlMap.store.Keys;
        if round == maxRounds {
          exit := OutOfRounds;
          break;
        }
        SnapshotRoundsSnoc(variousTtlMap.hash, now, start, rounds, keys, numKeyCheck, settings.percentWaterMark, rngs);
        SweepRound(variousTtlMap, start, rounds, round, keys, numKeyCheck, settings.percentWaterMark, rngs, now);
        rounds := rounds + [keys];
        round := round + 1;
      }
      AdditionalFinally();
      forall k | k in start.store && !IsExpired(start, variousTtlMap.hash, k, now) && NoSharedHash(variousTtlMap.hash, start.store.Keys, k)
        ensures exit == OutOfRounds
      {
        SnapshotRoundsKeepLive(variousTtlMap.hash, now, start, rounds, numKeyCheck, settings.percentWaterMark, rngs, k);
      }
    }
  }

  /**
   * `MultiThreadMapCleaner`: the store's keys are split into one chunk per
   * worker and handed out through a bounded queue; the `isInitChunks` flag
   * says whether the chunks of the current round were built.
   */
  class MultiThreadMapCleaner<K(==, !new), V(!new)> {
    const variousTtlMap: VariousTtlMapImpl<K, V>
    const settings: CleanerSettings
    const poolSize: nat
    var blockingQueue: seq<seq<K>>
    var isInitChunks: bool

    ghost predicate Valid()
      reads this, variousTtlMap, variousTtlMap.ttlMap
    {
      Accepted(settings) && poolSize == settings.poolSize && |blockingQueue| <= poolSize && variousTtlMap.Valid()
    }

    function State(): Round<K>
      reads this
    {
      Round(isInitChunks, blockingQueue)
    }

    constructor (variousTtlMap: VariousTtlMapImpl<K, V>, settings: CleanerSettings)
      requires Accepted(settings) && variousTtlMap.Valid()
      ensures Valid() && this.variousTtlMap == variousTtlMap && this.settings == settings
      ensures blockingQueue == [] && !isInitChunks
    {
      this.variousTtlMap := variousTtlMap;
      this.settings := settings;
      poolSize := settings.poolSize;
      blockingQueue := [];
      isInitChunks := false;
    }

    /** The hook before a run (registering with the phaser): no state of the model changes. */
    method AdditionalInit()
    {
    }

    /**
     * The hook after a run: the flag is lowered when no other worker is
     * still in the round, which the caller states in `noArrivedParties`.
     */
    method AdditionalFinally(noArrivedParties: bool)
      modifies this
      ensures isInitChunks == (old(isInitChunks) && !noArrivedParties)
      ensures blockingQueue == old(blockingQueue)
    {
      if noArrivedParties {
        isInitChunks := false;
      }
    }

    /** `offerChunk`: append at the tail, or fail with `IllegalStateException` when the queue is full. */
    method OfferChunk(chunk: seq<K>) returns (result: Outcome)
      requires |blockingQueue| <= poolSize
      modifies this
      ensures result.Success? <==> |old(blockingQueue)| < poolSize
      ensures result.Success? ==> blockingQueue == old(blockingQueue) + [chunk]
      ensures result.Failure? ==> result.error == IllegalState && blockingQueue == old(blockingQueue)
      ensures |blockingQueue| <= poolSize && isInitChunks == old(isInitChunks)
    {
      if |blockingQueue| < poolSize {
        blockingQueue := blockingQueue + [chunk];
        result := Success;
      } else {
        result := Failure(IllegalState);
      }
    }

    /**
     * `initAndPutChunks`: split a snapshot of the store and offer every
     * chunk. Chunks left over from an earlier round are dropped first, so
     * every offer fits.
     */
    method InitAndPutChunks() returns (ghost keys: seq<K>)
      requires Valid()
      modifies this
      ensures Valid() && isInitChunks == old(isInitChunks)
      ensures IsSnapshotOf(keys, variousTtlMap.store.Keys)
      ensures blockingQueue == Chunks(keys, poolSize)
    {
      var snapshot := Snapshot(variousTtlMap.store.Keys);
      keys := snapshot;
      var chunks := BuildChunks(snapshot, poolSize);
      blockingQueue := [];
      for i := 0 to |chunks|
        invariant blockingQueue == chunks[..i]
        invariant isInitChunks == old(isInitChunks)
      {
        var result := OfferChunk(chunks[i]);
        assert chunks[..i + 1] == chunks[..i] + [chunks[i]];
      }
      assert chunks[..|chunks|] == chunks;
    }

    /**
     * `getKeys`: build the round's chunks if the flag is down and raise it,
     * then poll the head of the queue (null when it is empty).
     */
    method GetKeys() returns (chunk: Option<seq<K>>, ghost keys: seq<K>)
      requires Valid()
      modifies this
      ensures Valid()
      ensures (State(), chunk) == Chunking.GetKeys(old(State()), keys, poolSize)
      ensures !old(isInitChunks) ==> IsSnapshotOf(keys, variousTtlMap.store.Keys)
    {
      keys := [];
      if !isInitChunks {
        keys := InitAndPutChunks();
        isInitChunks := true;
      }
      if blockingQueue == [] {
        chunk := None;
      } else {
        chunk := Some(blockingQueue[0]);
        blockingQueue := blockingQueue[1..];
      }
    }

    /** The chunks still to be handed out: the one just polled, if any, then the queue. */
    ghost function Pending(chunk: Option<seq<K>>): seq<seq<K>>
      reads this
    {
      if chunk.Some? then [chunk.value] + blockingQueue else blockingQueue
    }

    /** `getKeys` once the round's chunks are built: a poll of the queue, which the chunk returned leaves. */
    method PollChunk() returns (chunk: Option<seq<K>>)
      requires Valid() && isInitChunks
      modifies this
      ensures Valid() && isInitChunks
      ensures Pending(chunk) == old(blockingQueue)
      ensures chunk.None? ==> blockingQueue == []
    {
      ghost var queue := blockingQueue;
      ghost var snapshot;
      chunk, snapshot := GetKeys();
      assert Pending(chunk) == queue by {
        if queue != [] {
          assert queue == [queue[0]] + queue[1..];
        }
      }
    }

    /**
     * The loop of the task once the flag is up: sweep the chunk just polled
     * and poll the next, until a poll returns null or an empty chunk. `chunks`
     * are the chunks swept; the map is what their sweeps leave.
     */
    method SweepChunks(first: Option<seq<K>>, now: int, rngs: nat -> ((nat, nat) -> nat)) returns (exit: TaskExit, ghost chunks: seq<seq<K>>)
      requires Valid() && isInitChunks
      requires first.None? ==> blockingQueue == []
      modifies this, variousTtlMap, variousTtlMap.ttlMap
      ensures Valid() && isInitChunks
      ensures exit == NullKeys || exit == EmptyKeys
      ensures old(Pending(first)) == chunks + (if exit == EmptyKeys then [[]] else []) + blockingQueue
      ensures exit == NullKeys ==> blockingQueue == []
      ensures [] !in chunks
      ensures variousTtlMap.Abs() ==
        HashSweeps(variousTtlMap.hash, now, old(variousTtlMap.Abs()), chunks, settings.numKeyCheck as nat, settings.percentWaterMark, rngs)
    {
      ghost var start := variousTtlMap.Abs();
      ghost var pending := Pending(first);
      var numKeyCheck := settings.numKeyCheck as nat;
      var chunk := first;
      chunks := [];
      var count: nat := 0;
      while chunk.Some? && chunk.value != []
        invariant Valid() && isInitChunks
        invariant count == |chunks|
        invariant pending == chunks + Pending(chunk)
        invariant chunk.None? ==> blockingQueue == []
        invariant [] !in chunks
        invariant variousTtlMap.Abs() == HashSweeps(variousTtlMap.hash, now, start, chunks, numKeyCheck, settings.percentWaterMark, rngs)
        decreases |Pending(chunk)|
      {
        SweepRound(variousTtlMap, start, chunks, count, chunk.value, numKeyCheck, settings.percentWaterMark, rngs, now);
        ghost var queue := blockingQueue;
        ConcatAssociates(chunks, [chunk.value], queue);
        chunks := chunks + [chunk.value];
        count := count + 1;
        chunk := PollChunk();
      }
      exit := if chunk.None? then NullKeys else EmptyKeys;
    }

    /**
     * One run of the task by one worker: take chunks and sweep them until
     * `getKeys` returns null or an empty chunk; the flag is lowered at the
     * end when `noArrivedParties` says the worker was the last one. `round`
     * is the queue the run polls from: the queue as it was when the flag was
     * up, else the chunks of `keys`, a snapshot of the store. `chunks` are the
     * chunks swept, the queue's heads in order; the map is what their sweeps
     * leave.
     */
    method Task(now: int, rngs: nat -> ((nat, nat) -> nat), noArrivedParties: bool)
      returns (exit: TaskExit, ghost keys: seq<K>, ghost round: seq<seq<K>>, ghost chunks: seq<seq<K>>)
      requires Valid()
      modifies this, variousTtlMap, variousTtlMap.ttlMap
      ensures Valid()
      ensures old(isInitChunks) ==> round == old(blockingQueue)
      ensures !old(isInitChunks) ==> IsSnapshotOf(keys, old(variousTtlMap.store.Keys)) && round == Chunks(keys, poolSize)
      ensures exit == NullKeys || exit == EmptyKeys
      ensures round == chunks + (if exit == EmptyKeys then [[]] else []) + blockingQueue
      ensures exit == NullKeys ==> blockingQueue == []
      ensures [] !in chunks
      ensures variousTtlMap.Abs() ==
        HashSweeps(variousTtlMap.hash, now, old(variousTtlMap.Abs()), chunks, settings.numKeyCheck as nat, settings.percentWaterMark, rngs)
      ensures variousTtlMap.store.Keys <= old(variousTtlMap.store.Keys)
      ensures isInitChunks == !noArrivedParties
    {
      AdditionalInit();
      var chunk;
      chunk, keys := GetKeys();
      round := Pending(chunk);
      exit, chunks := SweepChunks(chunk, now, rngs);
      AdditionalFinally(noArrivedParties);
    }
  }

  /** What `build` returns. */
  datatype BuiltCleaner<K(==, !new), V(!new)> = Single(single: SingleThreadMapCleaner<K, V>) | Multi(multi: MultiThreadMapCleaner<K, V>)

  /** `BackgroundMapCleaner.Builder`: each setter sets its own field and returns the builder. */
  class Builder {
    var delayTime: int
    var poolSize: int
    var numKeyCheck: int
    var percentWaterMark: int

    /** `newBuilder`: the pool size defaults to one worker, everything else to 0. */
    constructor ()
      ensures poolSize == DefaultPoolSize && delayTime == 0 && numKeyCheck == 0 && percentWaterMark == 0
    {
      delayTime := 0;
      poolSize := DefaultPoolSize;
      numKeyCheck := 0;
      percentWaterMark := 0;
    }

    function Settings(): CleanerSettings
      reads this
    {
      CleanerSettings(delayTime, poolSize, numKeyCheck, percentWaterMark)
    }

    method SetDelayTime(delayTime: int) returns (self: Builder)
      modifies this
      ensures self == this && Settings() == old(Settings()).(delayTime := delayTime)
    {
      this.delayTime := delayTime;
      self := this;
    }

    method SetPoolSize(poolSize: int) returns (self: Builder)
      modifies this
      ensures self == this && Settings() == old(Settings()).(poolSize := poolSize)
    {
      this.poolSize := poolSize;
      self := this;
    }

    method SetNumKeyCheck(numKeyCheck: int) returns (self: Builder)
      modifies this
      ensures self == this && Settings() == old(Settings()).(numKeyCheck := numKeyCheck)
    {
      this.numKeyCheck := numKeyCheck;
      self := this;
    }

    method SetPercentWaterMark(percentWaterMark: int) returns (self: Builder)
      modifies this
      ensures self == this && Settings() == old(Settings()).(percentWaterMark := percentWaterMark)
    {
      this.percentWaterMark := percentWaterMark;
      self := this;
    }

    /**
     * `build`: a null map throws `NullPointerException` before anything is
     * made; otherwise the cleaner `SelectMode` picks, with its checks.
     */
    method Build<K(==, !new), V(!new)>(variousTtlMap: VariousTtlMapImpl?<K, V>) returns (r: Result<BuiltCleaner<K, V>>)
      requires variousTtlMap != null ==> variousTtlMap.Valid()
      ensures variousTtlMap == null ==> r == Err(NullPointer)
      ensures variousTtlMap != null ==> (r.Err? <==> SelectMode(Settings()).Err?)
      ensures variousTtlMap != null && r.Err? ==> r.error == IllegalArgument
      ensures r.Ok? ==> SelectMode(Settings()) == Ok(if r.value.Multi? then MultiThread else SingleThread)
      ensures r.Ok? && r.value.Single? ==>
        fresh(r.value.single) && r.value.single.Valid() &&
        r.value.single.variousTtlMap == variousTtlMap && r.value.single.settings == Settings()
      ensures r.Ok? && r.value.Multi? ==>
        fresh(r.value.multi) && r.value.multi.Valid() &&
        r.value.multi.variousTtlMap == variousTtlMap && r.value.multi.settings == Settings() &&
        r.value.multi.blockingQueue == [] && !r.value.multi.isInitChunks
    {
      if variousTtlMap == null {
        return Err(NullPointer);
      }
      var mode := SelectMode(Settings());
      match mode {
        case Err(e) =>
          r := Err(e);
        case Ok(MultiThread) =>
          var cleaner := new MultiThreadMapCleaner(variousTtlMap, Settings());
          r := Ok(Multi(cleaner));
        case Ok(SingleThread) =>
          var cleaner := new SingleThreadMapCleaner(variousTtlMap, Settings());
          r := Ok(Single(cleaner));
      }
    }
  }
}
