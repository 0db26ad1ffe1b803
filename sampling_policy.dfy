/**
 * The sampling policy every cleaner shares: the configuration checks, the
 * water-mark test, the random probe index, and one cleaning pass and one
 * sweep of a key snapshot, stated over any map that can say whether a key
 * has expired, remove a key, and list its keys.
 */
module SamplingPolicy {
  import opened Outcomes

  const HundredPercent: nat := 100
  const RedLinePercent: nat := 90

  /** The four numbers a cleaner is configured with. */
  datatype CleanerSettings = CleanerSettings(delayTime: int, poolSize: int, numKeyCheck: int, percentWaterMark: int)

  /** The settings a cleaner constructor accepts. */
  predicate Accepted(s: CleanerSettings)
  {
    s.poolSize > 0 && s.numKeyCheck > 0 && s.delayTime > 0 && 0 < s.percentWaterMark < 100
  }

  /** The constructor's argument checks, in the order they are made. */
  function CheckSettings(s: CleanerSettings): (r: Outcome)
    ensures r.Success? <==> Accepted(s)
    ensures r.Failure? ==> r.error == IllegalArgument
  {
    if s.poolSize <= 0 then Failure(IllegalArgument)
    else if s.numKeyCheck <= 0 then Failure(IllegalArgument)
    else if s.delayTime <= 0 then Failure(IllegalArgument)
    else if s.percentWaterMark <= 0 then Failure(IllegalArgument)
    else if s.percentWaterMark >= 100 then Failure(IllegalArgument)
    else Success
  }

  /**
   * Whether a pass removed enough of the snapshot to be repeated: strictly
   * more than the water mark and strictly less than the red line, both as
   * percentages of the snapshot size.
   */
  function CheckExcessWaterMark(percentWaterMark: int, size: nat, numDone: nat): (r: bool)
    requires 0 < percentWaterMark < 100
    ensures r ==> 0 < numDone < size
    ensures size == 0 ==> !r
    ensures numDone == 0 ==> !r
  {
    HundredPercent * numDone > percentWaterMark * size && HundredPercent * numDone < RedLinePercent * size
  }

  lemma RealQuotientBounds(a: real, b: real, c: real)
    requires b > 0.0
    ensures a / b < c <==> a < c * b
    ensures c < a / b <==> c * b < a
  {
    assert a == (a / b) * b;
  }

  /** The water-mark test is the comparison of the real percentage with both bounds. */
  lemma WaterMarkIsPercentage(percentWaterMark: int, size: nat, numDone: nat)
    requires 0 < percentWaterMark < 100
    requires size > 0
    ensures CheckExcessWaterMark(percentWaterMark, size, numDone) <==>
      percentWaterMark as real < (100 * numDone) as real / size as real < 90.0
  {
    RealQuotientBounds((100 * numDone) as real, size as real, 90.0);
    RealQuotientBounds((100 * numDone) as real, size as real, percentWaterMark as real);
  }

  /** The water-mark examples of the cleaner's unit test, with a water mark of 10. */
  lemma WaterMarkExamples()
    ensures CheckExcessWaterMark(10, 100, 25)
    ensures !CheckExcessWaterMark(10, 100, 5)
    ensures !CheckExcessWaterMark(10, 100, 10)
    ensures !CheckExcessWaterMark(10, 100, 90)
  {
  }

  /** Whether one more probe is made in the current pass. */
  function ProcessCondition(numAttempt: nat, arraySize: nat, numKeyCheck: nat): bool
  {
    arraySize != 0 && numAttempt < numKeyCheck && numAttempt < arraySize
  }

  /** The number of probes one pass makes. */
  function ProbeCount(numKeyCheck: nat, size: nat): (n: nat)
    ensures n <= numKeyCheck && n <= size
    ensures n == numKeyCheck || n == size
  {
    if numKeyCheck < size then numKeyCheck else size
  }

  /** Probing continues exactly while fewer than `ProbeCount` probes were made. */
  lemma ProcessConditionBound(numAttempt: nat, arraySize: nat, numKeyCheck: nat)
    ensures ProcessCondition(numAttempt, arraySize, numKeyCheck) <==> numAttempt < ProbeCount(numKeyCheck, arraySize)
  {
  }

  /**
   * The index probed in a snapshot of `size` keys, given the raw draw of the
   * random source: `nextInt(size - 1)` for two keys or more, so the last key
   * is never probed then.
   */
  function RandomIndex(size: nat, draw: nat): (i: nat)
    requires size >= 1
    ensures i < size
    ensures size >= 2 ==> i < size - 1
    ensures size == 1 ==> i == 0
  {
    if size == 1 then 0 else draw % (size - 1)
  }

  /** Every index short of the last one is probed by some draw. */
  lemma RandomIndexReaches(size: nat, i: nat)
    requires size >= 2 && i < size - 1
    ensures exists draw: nat :: RandomIndex(size, draw) == i
  {
    assert RandomIndex(size, i) == i;
  }

  /** The three map operations a cleaning pass uses, over a map state `S`. */
  datatype MapOps<!S, !K> = MapOps(expired: (S, K) -> bool, remove: (S, K) -> S, keys: S -> set<K>)

  /** The maps whose `remove` drops exactly the key it is given. */
  ghost predicate RemoveDropsKey<S(!new), K(!new)>(ops: MapOps<S, K>)
  {
    forall s: S, k: K {:trigger ops.keys(ops.remove(s, k))} :: ops.keys(ops.remove(s, k)) == ops.keys(s) - {k}
  }

  /**
   * What (the rest of) a pass did: the final map state, the keys it removed
   * in order, how many probes the code counts as removed, how many of those
   * actually evicted a key from the map, and the probed indices in order.
   */
  datatype PassOutcome<S, K> = PassOutcome(state: S, victims: seq<K>, removed: nat, evicted: nat, probes: seq<nat>)

  /** The outcome of one probe: the index, whether the key had expired, and whether it was in the map. */
  datatype ProbeOutcome<S> = ProbeOutcome(state: S, index: nat, expired: bool, evicted: bool)

  /** One probe: look at a random key of the snapshot and remove it if it has expired. */
  function Probe<S, K>(ops: MapOps<S, K>, s: S, keys: seq<K>, draw: nat): (r: ProbeOutcome<S>)
    requires |keys| >= 1
    ensures r.index < |keys|
    ensures r.evicted ==> r.expired
    ensures !r.expired ==> r.state == s
  {
    var i := RandomIndex(|keys|, draw);
    var key := keys[i];
    if ops.expired(s, key) then ProbeOutcome(ops.remove(s, key), i, true, key in ops.keys(s))
    else ProbeOutcome(s, i, false, false)
  }

  /**
   * The rest of pass number `pass`, from probe `numAttempt` on; the random
   * source yields the raw draw `rng(pass, numAttempt)` for each probe.
   */
  function PassFrom<S, K>(ops: MapOps<S, K>, s: S, keys: seq<K>, numKeyCheck: nat,
                          rng: (nat, nat) -> nat, pass: nat, numAttempt: nat): PassOutcome<S, K>
    decreases |keys| - numAttempt
  {
    if !ProcessCondition(numAttempt, |keys|, numKeyCheck) then PassOutcome(s, [], 0, 0, [])
    else
      var p := Probe(ops, s, keys, rng(pass, numAttempt));
      var rest := PassFrom(ops, p.state, keys, numKeyCheck, rng, pass, numAttempt + 1);
      PassOutcome(rest.state,
                  (if p.expired then [keys[p.index]] else []) + rest.victims,
                  rest.removed + (if p.expired then 1 else 0),
                  rest.evicted + (if p.evicted then 1 else 0),
                  [p.index] + rest.probes)
  }

  /** One probe followed by the rest of the pass. */
  lemma PassFromStep<S, K>(ops: MapOps<S, K>, s: S, keys: seq<K>, numKeyCheck: nat,
                           rng: (nat, nat) -> nat, pass: nat, numAttempt: nat)
    requires ProcessCondition(numAttempt, |keys|, numKeyCheck)
    ensures var p := Probe(ops, s, keys, rng(pass, numAttempt));
      var rest := PassFrom(ops, p.state, keys, numKeyCheck, rng, pass, numAttempt + 1);
      var whole := PassFrom(ops, s, keys, numKeyCheck, rng, pass, numAttempt);
      whole.state == rest.state &&
      whole.removed == rest.removed + (if p.expired then 1 else 0) &&
      whole.evicted == rest.evicted + (if p.evicted then 1 else 0)
  {
  }

  /** One whole pass (`tryRemoveKeys`). */
  function Pass<S, K>(ops: MapOps<S, K>, s: S, keys: seq<K>, numKeyCheck: nat, rng: (nat, nat) -> nat, pass: nat): PassOutcome<S, K>
  {
    PassFrom(ops, s, keys, numKeyCheck, rng, pass, 0)
  }

  /** Removing a sequence of keys in order. */
  function RemoveAll<S, K>(ops: MapOps<S, K>, s: S, victims: seq<K>): S
  {
    if victims == [] then s else RemoveAll(ops, ops.remove(s, victims[0]), victims[1..])
  }

  /** The rest of a pass makes the remaining probes and counts at most one removal per probe. */
  lemma {:induction false} PassFromCounts<S, K>(ops: MapOps<S, K>, s: S, keys: seq<K>, numKeyCheck: nat,
                                                 rng: (nat, nat) -> nat, pass: nat, numAttempt: nat)
    requires numAttempt <= ProbeCount(numKeyCheck, |keys|)
    ensures var p := PassFrom(ops, s, keys, numKeyCheck, rng, pass, numAttempt);
      |p.probes| == ProbeCount(numKeyCheck, |keys|) - numAttempt &&
      p.evicted <= p.removed == |p.victims| <= |p.probes|
    decreases |keys| - numAttempt
  {
    if ProcessCondition(numAttempt, |keys|, numKeyCheck) {
      var pr := Probe(ops, s, keys, rng(pass, numAttempt));
      PassFromCounts(ops, pr.state, keys, numKeyCheck, rng, pass, numAttempt + 1);
    }
  }

  /** Probe `j` of the rest of a pass is at the index drawn for attempt `numAttempt + j`. */
  lemma {:induction false} PassFromIndex<S, K>(ops: MapOps<S, K>, s: S, keys: seq<K>, numKeyCheck: nat,
                                                rng: (nat, nat) -> nat, pass: nat, numAttempt: nat, j: nat)
    requires j < |PassFrom(ops, s, keys, numKeyCheck, rng, pass, numAttempt).probes|
    ensures |keys| >= 1
    ensures PassFrom(ops, s, keys, numKeyCheck, rng, pass, numAttempt).probes[j] == RandomIndex(|keys|, rng(pass, numAttempt + j))
    decreases j
  {
    var p := PassFrom(ops, s, keys, numKeyCheck, rng, pass, numAttempt);
    assert ProcessCondition(numAttempt, |keys|, numKeyCheck);
    var pr := Probe(ops, s, keys, rng(pass, numAttempt));
    var rest := PassFrom(ops, pr.state, keys, numKeyCheck, rng, pass, numAttempt + 1);
    assert p.probes == [pr.index] + rest.probes;
    if j > 0 {
      PassFromIndex(ops, pr.state, keys, numKeyCheck, rng, pass, numAttempt + 1, j - 1);
      assert numAttempt + 1 + (j - 1) == numAttempt + j;
      assert p.probes[j] == rest.probes[j - 1];
    }
  }

  /** The rest of a pass removes snapshot keys, exactly its victims, one after the other. */
  lemma {:induction false} PassFromVictims<S, K>(ops: MapOps<S, K>, s: S, keys: seq<K>, numKeyCheck: nat,
                                                  rng: (nat, nat) -> nat, pass: nat, numAttempt: nat)
    ensures var p := PassFrom(ops, s, keys, numKeyCheck, rng, pass, numAttempt);
      (forall v :: v in p.victims ==> v in keys) && p.state == RemoveAll(ops, s, p.victims)
    decreases |keys| - numAttempt
  {
    if ProcessCondition(numAttempt, |keys|, numKeyCheck) {
      var p := PassFrom(ops, s, keys, numKeyCheck, rng, pass, numAttempt);
      var pr := Probe(ops, s, keys, rng(pass, numAttempt));
      var rest := PassFrom(ops, pr.state, keys, numKeyCheck, rng, pass, numAttempt + 1);
      PassFromVictims(ops, pr.state, keys, numKeyCheck, rng, pass, numAttempt + 1);
      if pr.expired {
        assert p.victims == [keys[pr.index]] + rest.victims;
        assert p.victims[1..] == rest.victims;
      } else {
        assert p.victims == rest.victims;
      }
    }
  }

  /** Victim `i` of the rest of a pass is the key at one of its probed indices, probe `j`. */
  lemma {:induction false} PassFromVictimProbed<S, K>(ops: MapOps<S, K>, s: S, keys: seq<K>, numKeyCheck: nat,
                                                       rng: (nat, nat) -> nat, pass: nat, numAttempt: nat, i: nat)
    returns (j: nat)
    requires i < |PassFrom(ops, s, keys, numKeyCheck, rng, pass, numAttempt).victims|
    ensures var p := PassFrom(ops, s, keys, numKeyCheck, rng, pass, numAttempt);
      j < |p.probes| && p.probes[j] < |keys| && p.victims[i] == keys[p.probes[j]]
    decreases |keys| - numAttempt
  {
    var p := PassFrom(ops, s, keys, numKeyCheck, rng, pass, numAttempt);
    assert ProcessCondition(numAttempt, |keys|, numKeyCheck);
    var pr := Probe(ops, s, keys, rng(pass, numAttempt));
    var rest := PassFrom(ops, pr.state, keys, numKeyCheck, rng, pass, numAttempt + 1);
    assert p.probes == [pr.index] + rest.probes;
    if pr.expired {
      assert p.victims == [keys[pr.index]] + rest.victims;
      if i == 0 {
        j := 0;
      } else {
        var j' := PassFromVictimProbed(ops, pr.state, keys, numKeyCheck, rng, pass, numAttempt + 1, i - 1);
        j := j' + 1;
        assert p.probes[j] == rest.probes[j'];
      }
    } else {
      assert p.victims == rest.victims;
      var j' := PassFromVictimProbed(ops, pr.state, keys, numKeyCheck, rng, pass, numAttempt + 1, i);
      j := j' + 1;
      assert p.probes[j] == rest.probes[j'];
    }
  }

  /** Victim `i` of the rest of a pass had expired in the map its removal was made on. */
  lemma {:induction false} PassFromVictimExpired<S, K>(ops: MapOps<S, K>, s: S, keys: seq<K>, numKeyCheck: nat,
                                                        rng: (nat, nat) -> nat, pass: nat, numAttempt: nat, i: nat)
    requires i < |PassFrom(ops, s, keys, numKeyCheck, rng, pass, numAttempt).victims|
    ensures var p := PassFrom(ops, s, keys, numKeyCheck, rng, pass, numAttempt);
      ops.expired(RemoveAll(ops, s, p.victims[..i]), p.victims[i])
    decreases |keys| - numAttempt
  {
    var p := PassFrom(ops, s, keys, numKeyCheck, rng, pass, numAttempt);
    assert ProcessCondition(numAttempt, |keys|, numKeyCheck);
    var pr := Probe(ops, s, keys, rng(pass, numAttempt));
    var rest := PassFrom(ops, pr.state, keys, numKeyCheck, rng, pass, numAttempt + 1);
    if pr.expired {
      var key := keys[pr.index];
      assert p.victims == [key] + rest.victims;
      if i == 0 {
        assert p.victims[..0] == [];
      } else {
        PassFromVictimExpired(ops, pr.state, keys, numKeyCheck, rng, pass, numAttempt + 1, i - 1);
        assert p.victims[..i][0] == key;
        assert p.victims[..i][1..] == rest.victims[..i - 1];
        assert p.victims[i] == rest.victims[i - 1];
      }
    } else {
      assert p.victims == rest.victims;
      PassFromVictimExpired(ops, pr.state, keys, numKeyCheck, rng, pass, numAttempt + 1, i);
    }
  }

  /** Each key a pass removes is a probed key that had expired in the map its removal was made on. */
  lemma PassVictims<S, K>(ops: MapOps<S, K>, s: S, keys: seq<K>, numKeyCheck: nat, rng: (nat, nat) -> nat, pass: nat)
    ensures var p := Pass(ops, s, keys, numKeyCheck, rng, pass);
      (forall v :: v in p.victims ==> exists j :: 0 <= j < |p.probes| && p.probes[j] < |keys| && v == keys[p.probes[j]]) &&
      (forall i :: 0 <= i < |p.victims| ==> ops.expired(RemoveAll(ops, s, p.victims[..i]), p.victims[i]))
  {
    var p := PassFrom(ops, s, keys, numKeyCheck, rng, pass, 0);
    forall v | v in p.victims
      ensures exists j :: 0 <= j < |p.probes| && p.probes[j] < |keys| && v == keys[p.probes[j]]
    {
      var i :| 0 <= i < |p.victims| && p.victims[i] == v;
      var j := PassFromVictimProbed(ops, s, keys, numKeyCheck, rng, pass, 0, i);
    }
    forall i | 0 <= i < |p.victims|
      ensures ops.expired(RemoveAll(ops, s, p.victims[..i]), p.victims[i])
    {
      PassFromVictimExpired(ops, s, keys, numKeyCheck, rng, pass, 0, i);
    }
  }

  /**
   * A pass probes `min(numKeyCheck, size)` random indices, none of them the
   * last one of a snapshot of two keys or more; it removes, one after the
   * other, probed keys that had expired when they were removed, and counts
   * each of them, so the count is at most the number of probes.
   */
  lemma PassProbes<S, K>(ops: MapOps<S, K>, s: S, keys: seq<K>, numKeyCheck: nat, rng: (nat, nat) -> nat, pass: nat)
    ensures var p := Pass(ops, s, keys, numKeyCheck, rng, pass);
      |p.probes| == ProbeCount(numKeyCheck, |keys|) &&
      (forall j :: 0 <= j < |p.probes| ==> p.probes[j] == RandomIndex(|keys|, rng(pass, j))) &&
      (forall j :: 0 <= j < |p.probes| ==> p.probes[j] < |keys| && (|keys| >= 2 ==> p.probes[j] < |keys| - 1)) &&
      p.evicted <= p.removed == |p.victims| <= |p.probes| &&
      (forall v :: v in p.victims ==> v in keys) &&
      (forall v :: v in p.victims ==> exists j :: 0 <= j < |p.probes| && p.probes[j] < |keys| && v == keys[p.probes[j]]) &&
      (forall i :: 0 <= i < |p.victims| ==> ops.expired(RemoveAll(ops, s, p.victims[..i]), p.victims[i])) &&
      p.state == RemoveAll(ops, s, p.victims)
  {
    PassFromCounts(ops, s, keys, numKeyCheck, rng, pass, 0);
    PassFromVictims(ops, s, keys, numKeyCheck, rng, pass, 0);
    PassVictims(ops, s, keys, numKeyCheck, rng, pass);
    var p := Pass(ops, s, keys, numKeyCheck, rng, pass);
    forall j | 0 <= j < |p.probes|
      ensures p.probes[j] == RandomIndex(|keys|, rng(pass, j))
      ensures p.probes[j] < |keys| && (|keys| >= 2 ==> p.probes[j] < |keys| - 1)
    {
      PassFromIndex(ops, s, keys, numKeyCheck, rng, pass, 0, j);
      assert 0 + j == j;
    }
  }

  lemma {:induction false} PassFromQuiet<S, K>(ops: MapOps<S, K>, s: S, keys: seq<K>, numKeyCheck: nat,
                                                rng: (nat, nat) -> nat, pass: nat, numAttempt: nat)
    requires forall k :: k in keys ==> !ops.expired(s, k)
    ensures var p := PassFrom(ops, s, keys, numKeyCheck, rng, pass, numAttempt);
      p.state == s && p.removed == 0 && p.evicted == 0 && p.victims == []
    decreases |keys| - numAttempt
  {
    if ProcessCondition(numAttempt, |keys|, numKeyCheck) {
      var pr := Probe(ops, s, keys, rng(pass, numAttempt));
      assert keys[pr.index] in keys;
      PassFromQuiet(ops, s, keys, numKeyCheck, rng, pass, numAttempt + 1);
    }
  }

  /** A pass over a snapshot none of whose keys has expired changes nothing and counts nothing. */
  lemma PassQuiet<S, K>(ops: MapOps<S, K>, s: S, keys: seq<K>, numKeyCheck: nat, rng: (nat, nat) -> nat, pass: nat)
    requires forall k :: k in keys ==> !ops.expired(s, k)
    ensures var p := Pass(ops, s, keys, numKeyCheck, rng, pass);
      p.state == s && p.removed == 0 && p.evicted == 0
  {
    PassFromQuiet(ops, s, keys, numKeyCheck, rng, pass, 0);
  }

  /** The elements of a sequence. */
  function Elements<K>(keys: seq<K>): set<K>
  {
    set k | k in keys
  }

  /** The number of snapshot keys still in the map. */
  function LiveCount<S, K>(ops: MapOps<S, K>, s: S, keys: seq<K>): nat
  {
    |ops.keys(s) * Elements(keys)|
  }

  lemma SubsetCardinality<K>(a: set<K>, b: set<K>)
    requires a <= b
    ensures |a| <= |b|
    ensures a != b ==> |a| < |b|
  {
    assert b == a + (b - a);
    if a != b {
      var x :| x in b && x !in a;
      assert x in b - a;
    }
  }

  lemma {:induction false} PassFromShrinks<S(!new), K(!new)>(ops: MapOps<S, K>, s: S, keys: seq<K>, numKeyCheck: nat,
                                                  rng: (nat, nat) -> nat, pass: nat, numAttempt: nat)
    requires RemoveDropsKey(ops)
    ensures var p := PassFrom(ops, s, keys, numKeyCheck, rng, pass, numAttempt);
      ops.keys(p.state) <= ops.keys(s) &&
      ops.keys(s) - ops.keys(p.state) <= Elements(keys) &&
      (p.evicted > 0 ==> LiveCount(ops, p.state, keys) < LiveCount(ops, s, keys))
    decreases |keys| - numAttempt
  {
    if ProcessCondition(numAttempt, |keys|, numKeyCheck) {
      var pr := Probe(ops, s, keys, rng(pass, numAttempt));
      var p := PassFrom(ops, s, keys, numKeyCheck, rng, pass, numAttempt);
      var rest := PassFrom(ops, pr.state, keys, numKeyCheck, rng, pass, numAttempt + 1);
      PassFromShrinks(ops, pr.state, keys, numKeyCheck, rng, pass, numAttempt + 1);
      var key := keys[pr.index];
      assert key in Elements(keys);
      assert ops.keys(pr.state) <= ops.keys(s) by {
        if pr.expired {
          assert ops.keys(ops.remove(s, key)) == ops.keys(s) - {key};
        }
      }
      var snap := Elements(keys);
      SubsetCardinality(ops.keys(rest.state) * snap, ops.keys(pr.state) * snap);
      SubsetCardinality(ops.keys(pr.state) * snap, ops.keys(s) * snap);
      if pr.evicted {
        assert ops.keys(ops.remove(s, key)) == ops.keys(s) - {key};
        assert key in ops.keys(s) * snap && key !in ops.keys(pr.state) * snap;
      }
    }
  }

  /**
   * A pass only removes keys, only keys of the snapshot, and a pass that
   * evicted a key leaves fewer of the snapshot's keys in the map.
   */
  lemma PassShrinks<S(!new), K(!new)>(ops: MapOps<S, K>, s: S, keys: seq<K>, numKeyCheck: nat, rng: (nat, nat) -> nat, pass: nat)
    requires RemoveDropsKey(ops)
    ensures var p := Pass(ops, s, keys, numKeyCheck, rng, pass);
      ops.keys(p.state) <= ops.keys(s) &&
      ops.keys(s) - ops.keys(p.state) <= Elements(keys) &&
      (p.evicted > 0 ==> LiveCount(ops, p.state, keys) < LiveCount(ops, s, keys))
  {
    PassFromShrinks(ops, s, keys, numKeyCheck, rng, pass, 0);
  }

  /** What a sweep of one snapshot did: the final map state and the number of passes. */
  datatype SweepOutcome<S> = SweepOutcome(state: S, passes: nat)

  /**
   * The repeated passes over one snapshot, from pass number `pass` on: a
   * further pass is made while the keys a pass evicted are above the water
   * mark and below the red line.
   */
  function Sweep<S(!new), K(!new)>(ops: MapOps<S, K>, s: S, keys: seq<K>, numKeyCheck: nat, percentWaterMark: int,
                       rng: (nat, nat) -> nat, pass: nat): (r: SweepOutcome<S>)
    requires RemoveDropsKey(ops) && 0 < percentWaterMark < 100
    ensures r.passes >= 1
    ensures ops.keys(r.state) <= ops.keys(s)
    ensures ops.keys(s) - ops.keys(r.state) <= Elements(keys)
    decreases LiveCount(ops, s, keys)
  {
    var p := Pass(ops, s, keys, numKeyCheck, rng, pass);
    PassShrinks(ops, s, keys, numKeyCheck, rng, pass);
    if CheckExcessWaterMark(percentWaterMark, |keys|, p.evicted) then
      var rest := Sweep(ops, p.state, keys, numKeyCheck, percentWaterMark, rng, pass + 1);
      SweepOutcome(rest.state, rest.passes + 1)
    else
      SweepOutcome(p.state, 1)
  }

  /** The number of passes of a sweep is bounded by the keys of the snapshot still in the map. */
  lemma {:induction false} SweepPassesBound<S(!new), K(!new)>(ops: MapOps<S, K>, s: S, keys: seq<K>, numKeyCheck: nat,
                                                   percentWaterMark: int, rng: (nat, nat) -> nat, pass: nat)
    requires RemoveDropsKey(ops) && 0 < percentWaterMark < 100
    ensures Sweep(ops, s, keys, numKeyCheck, percentWaterMark, rng, pass).passes <= LiveCount(ops, s, keys) + 1
    decreases LiveCount(ops, s, keys)
  {
    var p := Pass(ops, s, keys, numKeyCheck, rng, pass);
    PassShrinks(ops, s, keys, numKeyCheck, rng, pass);
    if CheckExcessWaterMark(percentWaterMark, |keys|, p.evicted) {
      SweepPassesBound(ops, p.state, keys, numKeyCheck, percentWaterMark, rng, pass + 1);
    }
  }

  /** A sweep of a snapshot none of whose keys has expired is a single pass that changes nothing. */
  lemma SweepQuiet<S(!new), K(!new)>(ops: MapOps<S, K>, s: S, keys: seq<K>, numKeyCheck: nat, percentWaterMark: int,
                         rng: (nat, nat) -> nat, pass: nat)
    requires RemoveDropsKey(ops) && 0 < percentWaterMark < 100
    requires forall k :: k in keys ==> !ops.expired(s, k)
    ensures Sweep(ops, s, keys, numKeyCheck, percentWaterMark, rng, pass) == SweepOutcome(s, 1)
  {
    PassQuiet(ops, s, keys, numKeyCheck, rng, pass);
  }

  /** Removing any snapshot key other than `k` leaves unchanged whether `k` has expired. */
  ghost predicate KeepsExpiry<S(!new), K(!new)>(ops: MapOps<S, K>, keys: seq<K>, k: K)
  {
    forall t: S, o: K {:trigger ops.expired(ops.remove(t, o), k)} ::
      o in keys && o != k ==> ops.expired(ops.remove(t, o), k) == ops.expired(t, k)
  }

  lemma {:induction false} PassFromKeepsLive<S(!new), K(!new)>(ops: MapOps<S, K>, s: S, keys: seq<K>, numKeyCheck: nat,
                                                                rng: (nat, nat) -> nat, pass: nat, numAttempt: nat, k: K)
    requires RemoveDropsKey(ops) && KeepsExpiry(ops, keys, k)
    requires k in ops.keys(s) && !ops.expired(s, k)
    ensures var p := PassFrom(ops, s, keys, numKeyCheck, rng, pass, numAttempt);
      k in ops.keys(p.state) && !ops.expired(p.state, k)
    decreases |keys| - numAttempt
  {
    if ProcessCondition(numAttempt, |keys|, numKeyCheck) {
      var pr := Probe(ops, s, keys, rng(pass, numAttempt));
      var key := keys[pr.index];
      if pr.expired {
        assert key != k && key in keys;
        assert ops.keys(ops.remove(s, key)) == ops.keys(s) - {key};
        assert ops.expired(ops.remove(s, key), k) == ops.expired(s, k);
      }
      PassFromKeepsLive(ops, pr.state, keys, numKeyCheck, rng, pass, numAttempt + 1, k);
    }
  }

  /**
   * A sweep keeps a stored key that has not expired, and it stays unexpired,
   * as long as removing the other keys of the snapshot leaves its expiry alone.
   */
  lemma {:induction false} SweepKeepsLive<S(!new), K(!new)>(ops: MapOps<S, K>, s: S, keys: seq<K>, numKeyCheck: nat,
                                                             percentWaterMark: int, rng: (nat, nat) -> nat, pass: nat, k: K)
    requires RemoveDropsKey(ops) && 0 < percentWaterMark < 100 && KeepsExpiry(ops, keys, k)
    requires k in ops.keys(s) && !ops.expired(s, k)
    ensures var r := Sweep(ops, s, keys, numKeyCheck, percentWaterMark, rng, pass);
      k in ops.keys(r.state) && !ops.expired(r.state, k)
    decreases LiveCount(ops, s, keys)
  {
    var p := Pass(ops, s, keys, numKeyCheck, rng, pass);
    PassFromKeepsLive(ops, s, keys, numKeyCheck, rng, pass, 0, k);
    PassShrinks(ops, s, keys, numKeyCheck, rng, pass);
    if CheckExcessWaterMark(percentWaterMark, |keys|, p.evicted) {
      SweepKeepsLive(ops, p.state, keys, numKeyCheck, percentWaterMark, rng, pass + 1, k);
    }
  }

  /** A run that may be cut short by a bound on the number of passes. */
  datatype Run<S> = Run(state: S, passes: nat, finished: bool)

  /**
   * The repeated passes as the code counts them: every probe that found its
   * key expired counts, even when an earlier pass had already removed the
   * key; at most `fuel` passes are followed.
   */
  function SweepAsWritten<S, K>(ops: MapOps<S, K>, s: S, keys: seq<K>, numKeyCheck: nat, percentWaterMark: int,
                                rng: (nat, nat) -> nat, pass: nat, fuel: nat): (r: Run<S>)
    requires 0 < percentWaterMark < 100
    ensures r.passes <= fuel
    ensures r.finished ==> r.passes >= 1
    decreases fuel
  {
    if fuel == 0 then Run(s, 0, false)
    else
      var p := Pass(ops, s, keys, numKeyCheck, rng, pass);
      if CheckExcessWaterMark(percentWaterMark, |keys|, p.removed) then
        var rest := SweepAsWritten(ops, p.state, keys, numKeyCheck, percentWaterMark, rng, pass + 1, fuel - 1);
        Run(rest.state, rest.passes + 1, rest.finished)
      else
        Run(p.state, 1, true)
  }

  /** A key sequence that lists each key of a set exactly once. */
  ghost predicate IsSnapshotOf<K>(keys: seq<K>, ks: set<K>)
  {
    (forall i, j :: 0 <= i < j < |keys| ==> keys[i] != keys[j]) &&
    Elements(keys) == ks
  }

  /** `new ArrayList<>(store.keySet())`: the keys of the store, in an order the model does not fix. */
  method Snapshot<K>(ks: set<K>) returns (keys: seq<K>)
    ensures IsSnapshotOf(keys, ks)
    ensures |keys| == |ks|
  {
    keys := [];
    var rest := ks;
    while rest != {}
      invariant rest <= ks
      invariant Elements(keys) == ks - rest
      invariant forall i, j :: 0 <= i < j < |keys| ==> keys[i] != keys[j]
      invariant |keys| + |rest| == |ks|
      decreases |rest|
    {
      var k :| k in rest;
      assert Elements(keys + [k]) == Elements(keys) + {k};
      keys := keys + [k];
      rest := rest - {k};
    }
  }
}
