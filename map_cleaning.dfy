/**
 * The sampling cleaner's work on the hash-keyed map, shared by the applied
 * cleaners and the legacy combined cleaner: a probe (`checkRandomKey`), a
 * pass (`tryRemoveKeys`) and the repeated passes over one snapshot (the
 * do-while of `task`).
 */
module MapCleaning {
  import opened Outcomes
  import opened SamplingPolicy
  import opened HashTtlMap

  /** How one task run ended (other than by an exception). */
  datatype TaskExit =
    | NullKeys     // `getKeys` returned null: the queue of key lists is drained
    | EmptyKeys    // `getKeys` returned an empty list
    | OutOfRounds  // the bound on rounds given to the model was reached

  /**
   * The sweep of one snapshot of the hash-keyed map: only snapshot keys are
   * removed, and a stored key that has not expired survives it, unexpired,
   * when no other snapshot key shares its hash code.
   */
  function HashSweep<K(!new), V(!new)>(hash: K -> int, now: int, s: HashState<K, V>, keys: seq<K>, numKeyCheck: nat,
                                       percentWaterMark: int, rng: (nat, nat) -> nat, pass: nat): (r: SweepOutcome<HashState<K, V>>)
    requires 0 < percentWaterMark < 100
    ensures r.state.store.Keys <= s.store.Keys
    ensures s.store.Keys - r.state.store.Keys <= Elements(keys)
    ensures forall k :: k in s.store && !IsExpired(s, hash, k, now) && NoSharedHash(hash, Elements(keys), k) ==>
      k in r.state.store && !IsExpired(r.state, hash, k, now)
    ensures r.passes >= 1
  {
    OpsRemoveDropsKey<K, V>(hash, now);
    HashSweepKeepsLive(hash, now, s, keys, numKeyCheck, percentWaterMark, rng, pass);
    Sweep(Ops(hash, now), s, keys, numKeyCheck, percentWaterMark, rng, pass)
  }

  lemma HashSweepKeepsLive<K(!new), V(!new)>(hash: K -> int, now: int, s: HashState<K, V>, keys: seq<K>, numKeyCheck: nat,
                                             percentWaterMark: int, rng: (nat, nat) -> nat, pass: nat)
    requires 0 < percentWaterMark < 100 && RemoveDropsKey(Ops<K, V>(hash, now))
    ensures var r := Sweep(Ops(hash, now), s, keys, numKeyCheck, percentWaterMark, rng, pass);
      forall k :: k in s.store && !IsExpired(s, hash, k, now) && NoSharedHash(hash, Elements(keys), k) ==>
        k in r.state.store && !IsExpired(r.state, hash, k, now)
  {
    forall k | k in s.store && !IsExpired(s, hash, k, now) && NoSharedHash(hash, Elements(keys), k)
      ensures var r := Sweep(Ops(hash, now), s, keys, numKeyCheck, percentWaterMark, rng, pass);
        k in r.state.store && !IsExpired(r.state, hash, k, now)
    {
      OpsKeepExpiry<K, V>(hash, now, keys, k);
      SweepKeepsLive(Ops(hash, now), s, keys, numKeyCheck, percentWaterMark, rng, pass, k);
    }
  }

  /**
   * The map after the sweeps of a task run: list `i` of `rounds` is swept
   * with the random source `rngs(i)`, each on the map the previous sweeps left.
   */
  function HashSweeps<K(!new), V(!new)>(hash: K -> int, now: int, s: HashState<K, V>, rounds: seq<seq<K>>, numKeyCheck: nat,
                                        percentWaterMark: int, rngs: nat -> ((nat, nat) -> nat)): (r: HashState<K, V>)
    requires 0 < percentWaterMark < 100
    ensures r.store.Keys <= s.store.Keys
    decreases |rounds|
  {
    if rounds == [] then s
    else
      var n := |rounds| - 1;
      var before := HashSweeps(hash, now, s, rounds[..n], numKeyCheck, percentWaterMark, rngs);
      HashSweep(hash, now, before, rounds[n], numKeyCheck, percentWaterMark, rngs(n), 0).state
  }

  /** One more list swept at the end of a run. */
  lemma HashSweepsSnoc<K(!new), V(!new)>(hash: K -> int, now: int, s: HashState<K, V>, rounds: seq<seq<K>>, keys: seq<K>,
                                         numKeyCheck: nat, percentWaterMark: int, rngs: nat -> ((nat, nat) -> nat))
    requires 0 < percentWaterMark < 100
    ensures var before := HashSweeps(hash, now, s, rounds, numKeyCheck, percentWaterMark, rngs);
      HashSweeps(hash, now, s, rounds + [keys], numKeyCheck, percentWaterMark, rngs) ==
      HashSweep(hash, now, before, keys, numKeyCheck, percentWaterMark, rngs(|rounds|), 0).state
  {
    assert (rounds + [keys])[..|rounds|] == rounds;
  }

  /**
   * The single-worker rounds of a task run: each list swept is a fresh,
   * non-empty snapshot of the store as the previous sweeps left it.
   */
  ghost predicate SnapshotRounds<K(!new), V(!new)>(hash: K -> int, now: int, s: HashState<K, V>, rounds: seq<seq<K>>,
                                                   numKeyCheck: nat, percentWaterMark: int, rngs: nat -> ((nat, nat) -> nat))
    requires 0 < percentWaterMark < 100
    decreases |rounds|
  {
    if rounds == [] then true
    else
      var n := |rounds| - 1;
      SnapshotRounds(hash, now, s, rounds[..n], numKeyCheck, percentWaterMark, rngs) &&
      rounds[n] != [] &&
      IsSnapshotOf(rounds[n], HashSweeps(hash, now, s, rounds[..n], numKeyCheck, percentWaterMark, rngs).store.Keys)
  }

  /** One more single-worker round: a fresh, non-empty snapshot of the store the earlier rounds left. */
  lemma SnapshotRoundsSnoc<K(!new), V(!new)>(hash: K -> int, now: int, s: HashState<K, V>, rounds: seq<seq<K>>, keys: seq<K>,
                                              numKeyCheck: nat, percentWaterMark: int, rngs: nat -> ((nat, nat) -> nat))
    requires 0 < percentWaterMark < 100
    requires SnapshotRounds(hash, now, s, rounds, numKeyCheck, percentWaterMark, rngs)
    requires keys != [] && IsSnapshotOf(keys, HashSweeps(hash, now, s, rounds, numKeyCheck, percentWaterMark, rngs).store.Keys)
    ensures SnapshotRounds(hash, now, s, rounds + [keys], numKeyCheck, percentWaterMark, rngs)
  {
    assert (rounds + [keys])[..|rounds|] == rounds;
  }

  /**
   * A stored key that has not expired, and whose hash code no other stored
   * key shares, is still stored and unexpired after any number of
   * single-worker rounds: the store never becomes empty.
   */
  lemma {:induction false} SnapshotRoundsKeepLive<K(!new), V(!new)>(hash: K -> int, now: int, s: HashState<K, V>, rounds: seq<seq<K>>,
                                                                    numKeyCheck: nat, percentWaterMark: int,
                                                                    rngs: nat -> ((nat, nat) -> nat), k: K)
    requires 0 < percentWaterMark < 100
    requires SnapshotRounds(hash, now, s, rounds, numKeyCheck, percentWaterMark, rngs)
    requires k in s.store && !IsExpired(s, hash, k, now) && NoSharedHash(hash, s.store.Keys, k)
    ensures var r := HashSweeps(hash, now, s, rounds, numKeyCheck, percentWaterMark, rngs);
      k in r.store && !IsExpired(r, hash, k, now)
    decreases |rounds|
  {
    if rounds != [] {
      var n := |rounds| - 1;
      SnapshotRoundsKeepLive(hash, now, s, rounds[..n], numKeyCheck, percentWaterMark, rngs, k);
      var before := HashSweeps(hash, now, s, rounds[..n], numKeyCheck, percentWaterMark, rngs);
      assert Elements(rounds[n]) <= s.store.Keys;
      assert NoSharedHash(hash, Elements(rounds[n]), k);
    }
  }

  /** `checkRandomKey`: probe one key, remove it if it has expired, and say whether it had. */
  method CheckRandomKey<K(==), V>(variousTtlMap: VariousTtlMapImpl<K, V>, keys: seq<K>, draw: nat, now: int)
    returns (expired: bool, evicted: bool)
    requires variousTtlMap.Valid() && |keys| >= 1
    modifies variousTtlMap, variousTtlMap.ttlMap
    ensures variousTtlMap.Valid()
    ensures var p := Probe(Ops(variousTtlMap.hash, now), old(variousTtlMap.Abs()), keys, draw);
      variousTtlMap.Abs() == p.state && expired == p.expired && evicted == p.evicted
  {
    var num := RandomIndex(|keys|, draw);
    var key := keys[num];
    expired := variousTtlMap.CheckExpired(key, now);
    evicted := false;
    if expired {
      var previous := variousTtlMap.Remove(key);
      evicted := previous.Some?;
    }
  }

  /**
   * `tryRemoveKeys`: `min(numKeyCheck, |keys|)` probes; returns the count
   * the code keeps (probes that found their key expired) and the count of
   * probes that evicted a key still in the store.
   */
  method TryRemoveKeys<K(==), V>(variousTtlMap: VariousTtlMapImpl<K, V>, keys: seq<K>, numKeyCheck: nat,
                                 rng: (nat, nat) -> nat, pass: nat, now: int)
    returns (numRemovedKeys: nat, numEvicted: nat)
    requires variousTtlMap.Valid()
    modifies variousTtlMap, variousTtlMap.ttlMap
    ensures variousTtlMap.Valid()
    ensures var p := Pass(Ops(variousTtlMap.hash, now), old(variousTtlMap.Abs()), keys, numKeyCheck, rng, pass);
      variousTtlMap.Abs() == p.state && numRemovedKeys == p.removed && numEvicted == p.evicted
    ensures numEvicted <= numRemovedKeys <= ProbeCount(numKeyCheck, |keys|)
  {
    ghost var ops := Ops<K, V>(variousTtlMap.hash, now);
    ghost var start := variousTtlMap.Abs();
    ghost var full := Pass(ops, start, keys, numKeyCheck, rng, pass);
    var numAttempt := 0;
    numRemovedKeys, numEvicted := 0, 0;
    var size := |keys|;
    while ProcessCondition(numAttempt, size, numKeyCheck)
      invariant variousTtlMap.Valid()
      invariant numAttempt <= size
      invariant var rest := PassFrom(ops, variousTtlMap.Abs(), keys, numKeyCheck, rng, pass, numAttempt);
        rest.state == full.state && numRemovedKeys + rest.removed == full.removed &&
        numEvicted + rest.evicted == full.evicted
      decreases size - numAttempt
    {
      PassFromStep(ops, variousTtlMap.Abs(), keys, numKeyCheck, rng, pass, numAttempt);
      var expired, evicted := CheckRandomKey(variousTtlMap, keys, rng(pass, numAttempt), now);
      if expired {
        numRemovedKeys := numRemovedKeys + 1;
      }
      if evicted {
        numEvicted := numEvicted + 1;
      }
      numAttempt := numAttempt + 1;
    }
    PassProbes(ops, start, keys, numKeyCheck, rng, pass);
  }

  /**
   * The do-while of `task` over one snapshot: passes repeat while the
   * keys the last pass evicted are above the water mark and below the red
   * line, as percentages of the snapshot's original size.
   */
  method CleanSnapshot<K(==, !new), V(!new)>(variousTtlMap: VariousTtlMapImpl<K, V>, keys: seq<K>, numKeyCheck: nat,
                                             percentWaterMark: int, rng: (nat, nat) -> nat, now: int)
    returns (passes: nat)
    requires variousTtlMap.Valid() && 0 < percentWaterMark < 100
    modifies variousTtlMap, variousTtlMap.ttlMap
    ensures variousTtlMap.Valid()
    ensures var r := HashSweep(variousTtlMap.hash, now, old(variousTtlMap.Abs()), keys, numKeyCheck, percentWaterMark, rng, 0);
      variousTtlMap.Abs() == r.state && passes == r.passes
  {
    ghost var ops := Ops<K, V>(variousTtlMap.hash, now);
    OpsRemoveDropsKey<K, V>(variousTtlMap.hash, now);
    ghost var full := HashSweep(variousTtlMap.hash, now, variousTtlMap.Abs(), keys, numKeyCheck, percentWaterMark, rng, 0);
    var size := |keys|;
    passes := 0;
    var more := true;
    while more
      invariant variousTtlMap.Valid()
      invariant more ==>
        var rest := HashSweep(variousTtlMap.hash, now, variousTtlMap.Abs(), keys, numKeyCheck, percentWaterMark, rng, passes);
        rest.state == full.state && passes + rest.passes == full.passes
      invariant !more ==> variousTtlMap.Abs() == full.state && passes == full.passes
      decreases if more then LiveCount(ops, variousTtlMap.Abs(), keys) + 1 else 0
    {
      ghost var before := variousTtlMap.Abs();
      PassShrinks(ops, before, keys, numKeyCheck, rng, passes);
      var numRemovedKeys, numEvicted := TryRemoveKeys(variousTtlMap, keys, numKeyCheck, rng, passes, now);
      passes := passes + 1;
      more := CheckExcessWaterMark(percentWaterMark, size, numEvicted);
    }
  }

  /** Regrouping the swept chunks, the chunk just polled and the queue, as the polling loops need. */
  lemma ConcatAssociates<T>(a: seq<T>, b: seq<T>, c: seq<T>)
    ensures a + (b + c) == (a + b) + c
  {
  }

  /** One round of a task run: the sweep of `keys`, appended to the sweeps already made. */
  method SweepRound<K(==, !new), V(!new)>(variousTtlMap: VariousTtlMapImpl<K, V>, ghost start: HashState<K, V>,
                                          ghost rounds: seq<seq<K>>, round: nat, keys: seq<K>, numKeyCheck: nat,
                                          percentWaterMark: int, rngs: nat -> ((nat, nat) -> nat), now: int)
    requires variousTtlMap.Valid() && 0 < percentWaterMark < 100 && round == |rounds|
    requires variousTtlMap.Abs() == HashSweeps(variousTtlMap.hash, now, start, rounds, numKeyCheck, percentWaterMark, rngs)
    modifies variousTtlMap, variousTtlMap.ttlMap
    ensures variousTtlMap.Valid()
    ensures variousTtlMap.Abs() == HashSweeps(variousTtlMap.hash, now, start, rounds + [keys], numKeyCheck, percentWaterMark, rngs)
  {
    HashSweepsSnoc(variousTtlMap.hash, now, start, rounds, keys, numKeyCheck, percentWaterMark, rngs);
    var passes := CleanSnapshot(variousTtlMap, keys, numKeyCheck, percentWaterMark, rngs(round), now);
  }
}
