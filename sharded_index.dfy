/**
 * The sharded expiry index of the hash-keyed map: an array of `int -> long`
 * hash maps, one per bucket, where a hash lives in bucket `|hash rem n|`
 * and a hash with no entry reads as 0.
 */
module ShardedIndex {

  const DefaultBuckets: nat := 16

  /** Java's `%` on `int`: the remainder takes the sign of the dividend. */
  function JavaRem(a: int, n: int): (r: int)
    requires n > 0
    ensures -n < r < n
    ensures a >= 0 ==> 0 <= r
    ensures a <= 0 ==> r <= 0
    ensures -n < a < n ==> r == a
  {
    if a >= 0 then a % n else -((-a) % n)
  }

  /** `getBucketId`: the absolute value of the truncated remainder. */
  function BucketId(hash: int, numBuckets: nat): (b: nat)
    requires numBuckets >= 1
    ensures b < numBuckets
  {
    var r := JavaRem(hash, numBuckets);
    if r < 0 then -r else r
  }

  /** A hash and its negation share a bucket, which is `|hash| mod n`. */
  lemma BucketIdSymmetric(hash: int, numBuckets: nat)
    requires numBuckets >= 1
    ensures BucketId(hash, numBuckets) == BucketId(-hash, numBuckets)
    ensures BucketId(hash, numBuckets) == (if hash < 0 then -hash else hash) % numBuckets
  {
  }

  /** The bucket maps; there is at least one bucket. */
  type Shards = s: seq<map<int, int>> | |s| >= 1 witness [map[]]

  /** Every hash sits in the bucket `BucketId` chooses for it. */
  ghost predicate WellPlaced(shards: Shards)
  {
    forall b, h :: 0 <= b < |shards| && h in shards[b] ==> BucketId(h, |shards|) == b
  }

  /** `n` empty buckets. */
  function EmptyShards(n: nat): (r: Shards)
    requires n >= 1
    ensures |r| == n && WellPlaced(r)
    ensures forall b :: 0 <= b < n ==> r[b] == map[]
  {
    seq(n, _ => map[])
  }

  /** Whether a hash has an entry. */
  predicate Holds(shards: Shards, hash: int)
  {
    hash in shards[BucketId(hash, |shards|)]
  }

  /** `get`: the stored value, or the default value 0 of the primitive map. */
  function Lookup(shards: Shards, hash: int): int
  {
    var b := BucketId(hash, |shards|);
    if hash in shards[b] then shards[b][hash] else 0
  }

  /** `put`: store `value` for `hash` in its bucket. */
  function Assign(shards: Shards, hash: int, value: int): (r: Shards)
    ensures |r| == |shards|
    ensures Holds(r, hash) && Lookup(r, hash) == value
    ensures forall h :: h != hash ==> Lookup(r, h) == Lookup(shards, h) && (Holds(r, h) <==> Holds(shards, h))
    ensures forall b :: 0 <= b < |shards| && b != BucketId(hash, |shards|) ==> r[b] == shards[b]
    ensures WellPlaced(shards) ==> WellPlaced(r)
  {
    var b := BucketId(hash, |shards|);
    shards[b := shards[b][hash := value]]
  }

  /** `remove`: drop the entry of `hash` from its bucket. */
  function Erase(shards: Shards, hash: int): (r: Shards)
    ensures |r| == |shards|
    ensures !Holds(r, hash) && Lookup(r, hash) == 0
    ensures forall h :: h != hash ==> Lookup(r, h) == Lookup(shards, h) && (Holds(r, h) <==> Holds(shards, h))
    ensures forall b :: 0 <= b < |shards| && b != BucketId(hash, |shards|) ==> r[b] == shards[b]
    ensures !Holds(shards, hash) ==> r == shards
    ensures WellPlaced(shards) ==> WellPlaced(r)
  {
    var b := BucketId(hash, |shards|);
    assert !Holds(shards, hash) ==> shards[b] - {hash} == shards[b];
    shards[b := shards[b] - {hash}]
  }

  /** Erasing twice is erasing once. */
  lemma EraseIdempotent(shards: Shards, hash: int)
    ensures Erase(Erase(shards, hash), hash) == Erase(shards, hash)
  {
  }

  /** After `clear` every hash reads as 0. */
  lemma ClearedReadsZero(n: nat, hash: int)
    requires n >= 1
    ensures !Holds(EmptyShards(n), hash) && Lookup(EmptyShards(n), hash) == 0
  {
  }

  /** `PrimitiveMapWrapper`: the bucket maps, updated in place; the locks are not modelled. */
  class PrimitiveMapWrapper {
    const numBuckets: nat
    var primitiveMaps: Shards

    ghost predicate Valid()
      reads this
    {
      |primitiveMaps| == numBuckets && WellPlaced(primitiveMaps)
    }

    /** The no-argument constructor: 16 buckets. */
    constructor Default()
      ensures Valid() && numBuckets == DefaultBuckets
      ensures forall b :: 0 <= b < numBuckets ==> primitiveMaps[b] == map[]
    {
      numBuckets := DefaultBuckets;
      primitiveMaps := EmptyShards(DefaultBuckets);
    }

    /** One empty map per bucket. */
    constructor (buckets: nat)
      requires buckets >= 1
      ensures Valid() && numBuckets == buckets
      ensures forall b :: 0 <= b < numBuckets ==> primitiveMaps[b] == map[]
    {
      numBuckets := buckets;
      var maps: seq<map<int, int>> := [map[]];
      for i := 1 to buckets
        invariant |maps| == i
        invariant forall b :: 0 <= b < i ==> maps[b] == map[]
      {
        maps := maps + [map[]];
      }
      primitiveMaps := maps;
    }

    method Put(hash: int, value: int)
      requires Valid()
      modifies this
      ensures Valid()
      ensures primitiveMaps == Assign(old(primitiveMaps), hash, value)
    {
      var bucketId := BucketId(hash, numBuckets);
      primitiveMaps := primitiveMaps[bucketId := primitiveMaps[bucketId][hash := value]];
    }

    method Remove(hash: int)
      requires Valid()
      modifies this
      ensures Valid()
      ensures primitiveMaps == Erase(old(primitiveMaps), hash)
    {
      var bucketId := BucketId(hash, numBuckets);
      primitiveMaps := primitiveMaps[bucketId := primitiveMaps[bucketId] - {hash}];
    }

    method Get(hash: int) returns (value: int)
      requires Valid()
      ensures value == Lookup(primitiveMaps, hash)
      ensures value != 0 ==> Holds(primitiveMaps, hash)
    {
      var bucketId := BucketId(hash, numBuckets);
      value := if hash in primitiveMaps[bucketId] then primitiveMaps[bucketId][hash] else 0;
    }

    /** Empties every bucket in turn. */
    method Clear()
      requires Valid()
      modifies this
      ensures Valid()
      ensures primitiveMaps == EmptyShards(numBuckets)
    {
      for i := 0 to numBuckets
        invariant |primitiveMaps| == numBuckets && WellPlaced(primitiveMaps)
        invariant forall b :: 0 <= b < i ==> primitiveMaps[b] == map[]
      {
        primitiveMaps := primitiveMaps[i := map[]];
      }
    }
  }
}
