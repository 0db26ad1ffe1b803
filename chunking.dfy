/**
 * The round-robin split of a key snapshot into one chunk per worker, and
 * the hand-off of the chunks through a bounded FIFO queue guarded by the
 * `isInitChunks` flag.
 */
module Chunking {
  import opened Outcomes

  /**
   * Chunk `c` of the round-robin split into `p` chunks: the keys whose
   * position is `c` modulo `p`, in their order.
   */
  function ChunkOf<K>(keys: seq<K>, p: nat, c: nat): seq<K>
    requires p >= 1
    decreases |keys|
  {
    if keys == [] then []
    else ChunkOf(keys[..|keys| - 1], p, c) + (if (|keys| - 1) % p == c then [keys[|keys| - 1]] else [])
  }

  /** The `p` chunks. */
  function Chunks<K>(keys: seq<K>, p: nat): (chunks: seq<seq<K>>)
    requires p >= 1
    ensures |chunks| == p
    ensures forall c :: 0 <= c < p ==> chunks[c] == ChunkOf(keys, p, c)
  {
    seq(p, c requires 0 <= c < p => ChunkOf(keys, p, c))
  }

  /** `buildChunks`: `p` empty lists, then the key at position `counter` goes to list `counter % p`. */
  method BuildChunks<K>(keys: seq<K>, poolSize: nat) returns (chunks: seq<seq<K>>)
    requires poolSize >= 1
    ensures chunks == Chunks(keys, poolSize)
  {
    chunks := [];
    for i := 0 to poolSize
      invariant |chunks| == i
      invariant forall c :: 0 <= c < i ==> chunks[c] == []
    {
      chunks := chunks + [[]];
    }
    var counter := 0;
    while counter < |keys|
      invariant 0 <= counter <= |keys|
      invariant |chunks| == poolSize
      invariant forall c :: 0 <= c < poolSize ==> chunks[c] == ChunkOf(keys[..counter], poolSize, c)
    {
      var index := counter % poolSize;
      assert keys[..counter + 1][..counter] == keys[..counter];
      chunks := chunks[index := chunks[index] + [keys[counter]]];
      counter := counter + 1;
    }
    assert keys[..|keys|] == keys;
  }

  /** Appending a key to the snapshot appends it to chunk `|keys| % p` only. */
  lemma ChunksSnoc<K>(keys: seq<K>, x: K, p: nat)
    requires p >= 1
    ensures Chunks(keys + [x], p) == Chunks(keys, p)[|keys| % p := Chunks(keys, p)[|keys| % p] + [x]]
  {
    assert (keys + [x])[..|keys|] == keys;
    var before := Chunks(keys, p);
    var after := Chunks(keys + [x], p);
    var i := |keys| % p;
    forall c | 0 <= c < p
      ensures after[c] == before[i := before[i] + [x]][c]
    {
      assert after[c] == ChunkOf(keys, p, c) + (if i == c then [x] else []);
    }
  }

  lemma DivModUnique(a: nat, p: nat, q: int, r: int)
    requires p >= 1 && 0 <= r < p && a == q * p + r
    ensures a / p == q && a % p == r
  {
    var q', r' := a / p, a % p;
    assert a == q' * p + r';
    var d := q' - q;
    assert d * p == r - r' by {
      assert q' * p == (q + d) * p == q * p + d * p;
    }
  }

  lemma DivModSucc(n: nat, p: nat)
    requires p >= 1
    ensures n % p < p - 1 ==> (n + 1) / p == n / p && (n + 1) % p == n % p + 1
    ensures n % p == p - 1 ==> (n + 1) / p == n / p + 1 && (n + 1) % p == 0
  {
    var q, r := n / p, n % p;
    assert n == q * p + r;
    if r < p - 1 {
      DivModUnique(n + 1, p, q, r + 1);
    } else {
      assert n + 1 == (q + 1) * p + 0;
      DivModUnique(n + 1, p, q + 1, 0);
    }
  }

  /**
   * Chunk `c` holds `|keys| / p` keys, plus one when `c` is below
   * `|keys| % p`: earlier chunks are never shorter, and sizes differ by at
   * most one.
   */
  lemma {:induction false} ChunkLength<K>(keys: seq<K>, p: nat, c: nat)
    requires p >= 1 && c < p
    ensures |ChunkOf(keys, p, c)| == |keys| / p + (if c < |keys| % p then 1 else 0)
    decreases |keys|
  {
    if keys != [] {
      var n := |keys| - 1;
      ChunkLength(keys[..n], p, c);
      assert |keys[..n]| == n;
      DivModSucc(n, p);
    }
  }

  /** Sizes of the chunks: later ones are never longer and at most one shorter. */
  lemma ChunksBalanced<K>(keys: seq<K>, p: nat, c1: nat, c2: nat)
    requires p >= 1 && c1 < c2 < p
    ensures |ChunkOf(keys, p, c2)| <= |ChunkOf(keys, p, c1)| <= |ChunkOf(keys, p, c2)| + 1
  {
    ChunkLength(keys, p, c1);
    ChunkLength(keys, p, c2);
  }

  /** The key at position `i` sits in chunk `i % p` at place `i / p`. */
  lemma {:induction false} ChunkPosition<K>(keys: seq<K>, p: nat, i: nat)
    requires p >= 1 && i < |keys|
    ensures i / p < |ChunkOf(keys, p, i % p)|
    ensures ChunkOf(keys, p, i % p)[i / p] == keys[i]
    decreases |keys|
  {
    var n := |keys| - 1;
    assert |keys[..n]| == n;
    if i == n {
      ChunkLength(keys[..n], p, i % p);
      assert ChunkOf(keys, p, i % p) == ChunkOf(keys[..n], p, i % p) + [keys[n]];
    } else {
      ChunkPosition(keys[..n], p, i);
    }
  }

  /** All chunks laid end to end. */
  function Flatten<K>(chunks: seq<seq<K>>): seq<K>
  {
    if chunks == [] then [] else chunks[0] + Flatten(chunks[1..])
  }

  lemma {:induction false} FlattenAppendAt<K>(chunks: seq<seq<K>>, i: nat, x: K)
    requires i < |chunks|
    ensures multiset(Flatten(chunks[i := chunks[i] + [x]])) == multiset(Flatten(chunks)) + multiset{x}
    decreases |chunks|
  {
    var updated := chunks[i := chunks[i] + [x]];
    if i == 0 {
      assert updated[1..] == chunks[1..];
    } else {
      assert updated[1..] == chunks[1..][i - 1 := chunks[1..][i - 1] + [x]];
      FlattenAppendAt(chunks[1..], i - 1, x);
    }
  }

  /** `p` empty chunks. */
  function EmptyChunks<K>(p: nat): (chunks: seq<seq<K>>)
    ensures |chunks| == p && forall c :: 0 <= c < p ==> chunks[c] == []
  {
    seq(p, _ => [])
  }

  lemma {:induction false} FlattenEmpties<K>(p: nat)
    ensures Flatten(EmptyChunks<K>(p)) == []
    decreases p
  {
    if p > 0 {
      assert EmptyChunks<K>(p)[1..] == EmptyChunks<K>(p - 1);
      FlattenEmpties<K>(p - 1);
    }
  }

  /** The chunks partition the snapshot: together they hold each key as often as the snapshot does. */
  lemma {:induction false} ChunksPartition<K>(keys: seq<K>, p: nat)
    requires p >= 1
    ensures multiset(Flatten(Chunks(keys, p))) == multiset(keys)
    ensures |Flatten(Chunks(keys, p))| == |keys|
    decreases |keys|
  {
    if keys == [] {
      assert Chunks(keys, p) == EmptyChunks<K>(p);
      FlattenEmpties<K>(p);
    } else {
      var n := |keys| - 1;
      ChunksPartition(keys[..n], p);
      assert keys[..n] + [keys[n]] == keys;
      ChunksSnoc(keys[..n], keys[n], p);
      FlattenAppendAt(Chunks(keys[..n], p), n % p, keys[n]);
      assert multiset(keys) == multiset(keys[..n]) + multiset{keys[n]};
    }
    assert |multiset(Flatten(Chunks(keys, p)))| == |Flatten(Chunks(keys, p))|;
  }

  /** Chunk `c` is the keys at positions `c`, `c + p`, `c + 2p`, ... in order. */
  lemma ChunkStrided<K>(keys: seq<K>, p: nat, c: nat, chunk: seq<K>)
    requires p >= 1 && c < p
    requires |chunk| == |keys| / p + (if c < |keys| % p then 1 else 0)
    requires forall j :: 0 <= j < |chunk| ==> c + p * j < |keys| && keys[c + p * j] == chunk[j]
    ensures ChunkOf(keys, p, c) == chunk
  {
    ChunkLength(keys, p, c);
    forall j | 0 <= j < |chunk|
      ensures ChunkOf(keys, p, c)[j] == chunk[j]
    {
      DivModUnique(c + p * j, p, j, c);
      ChunkPosition(keys, p, c + p * j);
    }
  }

  /** The split of ten keys into three chunks that the cleaner's unit test checks. */
  lemma TenKeysThreeChunks()
    ensures Chunks([0, 1, 2, 3, 4, 5, 6, 7, 8, 9], 3) == [[0, 3, 6, 9], [1, 4, 7], [2, 5, 8]]
  {
    var keys := [0, 1, 2, 3, 4, 5, 6, 7, 8, 9];
    ChunkStrided(keys, 3, 0, [0, 3, 6, 9]);
    ChunkStrided(keys, 3, 1, [1, 4, 7]);
    ChunkStrided(keys, 3, 2, [2, 5, 8]);
  }

  /** The split of eleven keys into two chunks: even and odd positions. */
  lemma ElevenKeysTwoChunks()
    ensures Chunks([0, 1, 2, 3, 4, 5, 6, 7, 8, 9, 10], 2) == [[0, 2, 4, 6, 8, 10], [1, 3, 5, 7, 9]]
  {
    var keys := [0, 1, 2, 3, 4, 5, 6, 7, 8, 9, 10];
    ChunkStrided(keys, 2, 0, [0, 2, 4, 6, 8, 10]);
    ChunkStrided(keys, 2, 1, [1, 3, 5, 7, 9]);
  }

  /**
   * `offerChunk` for each item in turn on a FIFO queue of capacity
   * `capacity`: each item is appended at the tail, and the first one the
   * full queue refuses throws `IllegalStateException`.
   */
  function OfferAll<T>(queue: seq<T>, capacity: nat, items: seq<T>): (r: (seq<T>, Outcome))
    requires |queue| <= capacity
    ensures r.1.Success? <==> |queue| + |items| <= capacity
    ensures r.1.Success? ==> r.0 == queue + items
    ensures r.1.Failure? ==> r.1.error == IllegalState && r.0 == queue + items[..capacity - |queue|]
    decreases |items|
  {
    if items == [] then (queue, Success)
    else if |queue| < capacity then
      var r := OfferAll(queue + [items[0]], capacity, items[1..]);
      assert r.1.Failure? ==> (queue + [items[0]]) + items[1..][..capacity - |queue| - 1] == queue + items[..capacity - |queue|];
      assert r.1.Success? ==> (queue + [items[0]]) + items[1..] == queue + items;
      r
    else (queue, Failure(IllegalState))
  }

  /** The hand-off state: the `isInitChunks` flag and the queue of chunks. */
  datatype Round<K> = Round(isInitChunks: bool, queue: seq<seq<K>>)

  /** `poll`: the head of the queue, removed, or null on an empty queue. */
  function Poll<K>(r: Round<K>): (Round<K>, Option<seq<K>>)
  {
    if r.queue == [] then (r, None) else (Round(r.isInitChunks, r.queue[1..]), Some(r.queue[0]))
  }

  /**
   * `getKeys` as written: while the flag is down, the chunks of the current
   * snapshot are offered to whatever the queue still holds, then the flag
   * goes up and the head is polled.
   */
  function GetKeysAsWritten<K>(r: Round<K>, snapshot: seq<K>, poolSize: nat): (Round<K>, Result<Option<seq<K>>>)
    requires poolSize >= 1 && |r.queue| <= poolSize
  {
    if r.isInitChunks then
      var (next, chunk) := Poll(r);
      (next, Ok(chunk))
    else
      var (queue, offered) := OfferAll(r.queue, poolSize, Chunks(snapshot, poolSize));
      if offered.Failure? then (Round(false, queue), Err(offered.error))
      else
        var (next, chunk) := Poll(Round(true, queue));
        (next, Ok(chunk))
  }

  /**
   * `getKeys` with the rebuild starting from an empty queue: chunks left
   * over from an earlier round are dropped, so the offers always fit.
   */
  function GetKeys<K>(r: Round<K>, snapshot: seq<K>, poolSize: nat): (result: (Round<K>, Option<seq<K>>))
    requires poolSize >= 1
    ensures result.0.isInitChunks
    ensures r.isInitChunks ==> result == Poll(r)
  {
    if r.isInitChunks then Poll(r) else Poll(Round(true, Chunks(snapshot, poolSize)))
  }

  /** The two agree whenever the queue is empty at the rebuild. */
  lemma GetKeysAgreesOnEmptyQueue<K>(r: Round<K>, snapshot: seq<K>, poolSize: nat)
    requires poolSize >= 1 && r.queue == []
    ensures var corrected := GetKeys(r, snapshot, poolSize);
      GetKeysAsWritten(r, snapshot, poolSize) == (corrected.0, Ok(corrected.1))
  {
  }

  /** As written, a rebuild over a queue that still holds a chunk throws `IllegalStateException`. */
  lemma StaleQueueRebuildFails<K>(r: Round<K>, snapshot: seq<K>, poolSize: nat)
    requires poolSize >= 1 && 1 <= |r.queue| <= poolSize && !r.isInitChunks
    ensures GetKeysAsWritten(r, snapshot, poolSize).1 == Err(IllegalState)
  {
  }

  /**
   * Two workers over an empty store: the first call of a round polls one
   * empty chunk, the task ends on it and leaves the other one in the queue;
   * the flag reset then lets the next run rebuild over it, which throws.
   */
  lemma StaleChunkOverflow()
    ensures GetKeysAsWritten<int>(Round(false, []), [], 2) == (Round(true, [[]]), Ok(Some([])))
    ensures GetKeysAsWritten<int>(Round(false, [[]]), [], 2) == (Round(false, [[], []]), Err(IllegalState))
    ensures GetKeys<int>(Round(false, [[]]), [], 2) == (Round(true, [[]]), Some([]))
  {
    var chunks := Chunks<int>([], 2);
    assert chunks == [[], []];
    assert OfferAll([[]], 2, chunks) == ([[]] + chunks[..1], Failure(IllegalState));
    assert [[]] + chunks[..1] == [[], []];
  }

  /** The values `n` successive calls of the corrected `getKeys` return. */
  function Calls<K>(r: Round<K>, snapshot: seq<K>, poolSize: nat, n: nat): (Round<K>, seq<Option<seq<K>>>)
    requires poolSize >= 1
    decreases n
  {
    if n == 0 then (r, [])
    else
      var (next, chunk) := GetKeys(r, snapshot, poolSize);
      var (last, chunks) := Calls(next, snapshot, poolSize, n - 1);
      (last, [chunk] + chunks)
  }

  /** Each element of a sequence, wrapped. */
  function Somes<T>(s: seq<T>): (r: seq<Option<T>>)
    ensures |r| == |s| && forall i :: 0 <= i < |s| ==> r[i] == Some(s[i])
  {
    seq(|s|, i requires 0 <= i < |s| => Some(s[i]))
  }

  lemma {:induction false} DrainQueue<K>(queue: seq<seq<K>>, snapshot: seq<K>, poolSize: nat)
    requires poolSize >= 1
    ensures Calls(Round(true, queue), snapshot, poolSize, |queue| + 1) == (Round(true, []), Somes(queue) + [None])
    decreases |queue|
  {
    if queue == [] {
      assert GetKeys(Round(true, queue), snapshot, poolSize) == (Round(true, []), None);
      assert Calls(Round(true, queue), snapshot, poolSize, 0) == (Round(true, []), []);
      var none: Option<seq<K>> := None;
      assert [none] + [] == [none];
      assert Calls(Round(true, queue), snapshot, poolSize, 1) == (Round(true, []), [none]);
      assert Somes(queue) + [None] == [None];
    } else {
      var rest := Calls(Round(true, queue[1..]), snapshot, poolSize, |queue[1..]| + 1);
      DrainQueue(queue[1..], snapshot, poolSize);
      assert GetKeys(Round(true, queue), snapshot, poolSize) == (Round(true, queue[1..]), Some(queue[0]));
      assert Calls(Round(true, queue), snapshot, poolSize, |queue| + 1) == (rest.0, [Some(queue[0])] + rest.1);
      assert Somes(queue) + [None] == [Some(queue[0])] + (Somes(queue[1..]) + [None]);
    }
  }

  /**
   * From a lowered flag, `poolSize` calls return the chunks of the snapshot
   * in order, and the next call returns null; no rebuild happens meanwhile.
   */
  lemma RoundYieldsEachChunkOnce<K>(r: Round<K>, snapshot: seq<K>, poolSize: nat)
    requires poolSize >= 1 && !r.isInitChunks
    ensures Calls(r, snapshot, poolSize, poolSize + 1) == (Round(true, []), Somes(Chunks(snapshot, poolSize)) + [None])
  {
    var chunks := Chunks(snapshot, poolSize);
    var rest := Calls(Round(true, chunks[1..]), snapshot, poolSize, |chunks[1..]| + 1);
    DrainQueue(chunks[1..], snapshot, poolSize);
    assert GetKeys(r, snapshot, poolSize) == (Round(true, chunks[1..]), Some(chunks[0]));
    assert Calls(r, snapshot, poolSize, poolSize + 1) == (rest.0, [Some(chunks[0])] + rest.1);
    assert Somes(chunks) + [None] == [Some(chunks[0])] + (Somes(chunks[1..]) + [None]);
  }
}
