# various-ttl-map, modelled in Dafny

This project models the core of *various-ttl-map*. The library is a key/value map in which every entry carries its own time-to-live. Three facades keep the expiries in different ways:

- **the hash-keyed map** (`variousttlmap.VariousTtlMapImpl`) keeps absolute deadlines in a sharded primitive index (`PrimitiveMapWrapper`), keyed by the key's `hashCode`. A missing slot reads as 0.
- **the cache** (`variousttlcache.VariousTtlCacheImpl`) keeps absolute deadlines keyed by the key itself. A key with no deadline counts as expired.
- **the timestamp map** (`variousttlcache.VariousTtlMapImpl`) keeps the time of the last put and a relative TTL per key.

Expired entries are removed lazily by `get`. Background cleaners also sweep them using a sampling policy:

- take a snapshot of the keys;
- probe `min(numKeyCheck, size)` random keys and remove the expired ones;
- repeat the pass while the share of keys removed lies strictly between the water mark and a 90 % red line.

A multi-worker cleaner splits the snapshot round-robin into one chunk per worker and hands the chunks out through a bounded queue, guarded by an `isInitChunks` flag.

The model has one module per part:

| file | module | models |
|---|---|---|
| `outcomes.dfy` | `Outcomes` | optional values, results and the three exceptions the code throws; the seconds-to-nanoseconds factor |
| `sampling_policy.dfy` | `SamplingPolicy` | configuration checks, the water-mark test, the probe index, one pass and one sweep over any map that can test expiry, remove a key and list its keys |
| `sharded_index.dfy` | `ShardedIndex` | `PrimitiveMapWrapper`, the sharded `int -> long` index |
| `hash_ttl_map.dfy` | `HashTtlMap` | the hash-keyed map |
| `ttl_cache.dfy` | `TtlCache` | the cache |
| `timestamp_ttl_map.dfy` | `TimestampTtlMap` | the timestamp map |
| `chunking.dfy` | `Chunking` | `buildChunks`, the bounded queue and the flag-guarded round of `getKeys` |
| `map_cleaning.dfy` | `MapCleaning` | probe, pass and sweep performed on the hash-keyed map object; the sweeps of a whole task run; how a task run ends (`TaskExit`) |
| `applied_cleaner.dfy` | `AppliedCleaner` | the applied cleaners: builder, single-worker and multi-worker cleaner |
| `legacy_map_cleaner.dfy` | `LegacyMapCleaner` | the older combined cleaner of the hash-keyed map |
| `cache_cleaner.dfy` | `CacheCleaner` | the cleaner of the cache |

Operations that update objects in place are methods of classes. Each method is proved against a function of the model: its `ensures` ties the new state and the result to that function, and the lemmas state what the function promises.

The clock (`System.nanoTime()`) is the parameter `now`. The random source is an oracle `rng(pass, attempt)` of raw draws, which `RandomIndex` reduces to the range of `nextInt(size - 1)`. `hashCode` is an uninterpreted function `hash: K -> int`.

## Model

Source paths are relative to the repository root.

| member | source | states |
|---|---|---|
| Outcomes.Find | src/main/java/com/github/mchernyakov/variousttlcache/VariousTtlCacheImpl.java:54 | a map lookup yields a value exactly for a present key, and that value is the stored one (Java's null for a missing key is `None`) |
| SamplingPolicy.CheckSettings | src/main/java/com/github/mchernyakov/variousttlmap/applied/cleaner/AbstractBackgroundMapCleaner.java:47-52 | construction succeeds iff poolSize > 0, numKeyCheck > 0, delayTime > 0 and 0 < percentWaterMark < 100; otherwise it fails with IllegalArgumentException |
| SamplingPolicy.CheckExcessWaterMark | src/main/java/com/github/mchernyakov/variousttlmap/applied/cleaner/AbstractBackgroundMapCleaner.java:116-119 | a repeat is asked for only when the pass removed some keys but fewer than all of them; never for an empty snapshot or a pass that removed nothing |
| SamplingPolicy.WaterMarkIsPercentage | src/main/java/com/github/mchernyakov/variousttlmap/applied/cleaner/AbstractBackgroundMapCleaner.java:116-119 | for a non-empty snapshot the test holds iff the exact percentage 100·numDone/size is strictly above the water mark and strictly below 90 |
| SamplingPolicy.WaterMarkExamples | src/test/java/com/github/mchernyakov/variousttlmap/applied/cleaner/AbstractBackgroundMapCleanerTest.java:71-76 | with water mark 10: (100, 25) repeats; (100, 5), (100, 10) and (100, 90) do not |
| SamplingPolicy.ProbeCount | src/main/java/com/github/mchernyakov/variousttlmap/applied/cleaner/AbstractBackgroundMapCleaner.java:134-136 | the number of probes of a pass is min(numKeyCheck, size): bounded by both and equal to one of them |
| SamplingPolicy.ProcessConditionBound | src/main/java/com/github/mchernyakov/variousttlmap/applied/cleaner/AbstractBackgroundMapCleaner.java:134-136 | `processCondition` holds exactly while fewer than min(numKeyCheck, size) probes were made (so none for an empty list) |
| SamplingPolicy.RandomIndex | src/main/java/com/github/mchernyakov/variousttlmap/applied/cleaner/AbstractBackgroundMapCleaner.java:152-158 | the probed index is 0 for one key and in [0, size−2] otherwise, so the snapshot's last key is never probed |
| SamplingPolicy.RandomIndexReaches | src/main/java/com/github/mchernyakov/variousttlmap/applied/cleaner/AbstractBackgroundMapCleaner.java:157 | every index in [0, size−2] is the result of some draw |
| SamplingPolicy.Probe | src/main/java/com/github/mchernyakov/variousttlmap/applied/cleaner/AbstractBackgroundMapCleaner.java:138-150 | a probe looks at an index of the snapshot; a key that has not expired leaves the map unchanged; only an expired key can be evicted |
| SamplingPolicy.PassFromStep | src/main/java/com/github/mchernyakov/variousttlmap/applied/cleaner/AbstractBackgroundMapCleaner.java:125-130 | one loop step of `tryRemoveKeys`: a probe, then the rest of the pass, adding one to the count iff the probe found its key expired |
| SamplingPolicy.PassVictims | src/main/java/com/github/mchernyakov/variousttlmap/applied/cleaner/AbstractBackgroundMapCleaner.java:125-130 | every key a pass removes is the key at one of its probed indices, and it had expired in the map as it stood just before its removal |
| SamplingPolicy.PassFromVictimProbed | src/main/java/com/github/mchernyakov/variousttlmap/applied/cleaner/AbstractBackgroundMapCleaner.java:125-130 | the i-th key removed by the probes from a given attempt on is the snapshot key at one of those probes' indices |
| SamplingPolicy.PassFromVictimExpired | src/main/java/com/github/mchernyakov/variousttlmap/applied/cleaner/AbstractBackgroundMapCleaner.java:125-130 | the i-th key removed by the probes from a given attempt on had expired in the map left by the removals before it |
| SamplingPolicy.PassProbes | src/main/java/com/github/mchernyakov/variousttlmap/applied/cleaner/AbstractBackgroundMapCleaner.java:121-132 | a pass makes exactly min(numKeyCheck, size) probes, each at the index the draw gives and never at the last index; the map afterwards is the old one with its victims removed one after the other; each victim is a probed snapshot key that had expired just before its removal; the count equals the number of victims and is at most the number of probes, and evictions are at most the count |
| SamplingPolicy.PassQuiet | src/main/java/com/github/mchernyakov/variousttlmap/applied/cleaner/AbstractBackgroundMapCleaner.java:138-150 | when no snapshot key has expired, a pass changes nothing and counts nothing |
| SamplingPolicy.PassShrinks | src/main/java/com/github/mchernyakov/variousttlmap/applied/cleaner/AbstractBackgroundMapCleaner.java:121-132 | a pass only removes keys from the map, only keys of the snapshot, and a pass that evicted a key leaves fewer snapshot keys in the map |
| SamplingPolicy.PassFromKeepsLive | src/main/java/com/github/mchernyakov/variousttlmap/applied/cleaner/AbstractBackgroundMapCleaner.java:121-132 | probes from a given attempt on keep a stored, unexpired key stored and unexpired, when removing other snapshot keys leaves its expiry alone |
| SamplingPolicy.Sweep | src/main/java/com/github/mchernyakov/variousttlmap/applied/cleaner/AbstractBackgroundMapCleaner.java:90-94 | the repeated passes over one snapshot and its original size make at least one pass, only remove keys, and remove no key outside the snapshot (evictions are counted; see Findings) |
| SamplingPolicy.SweepKeepsLive | src/main/java/com/github/mchernyakov/variousttlmap/applied/cleaner/AbstractBackgroundMapCleaner.java:90-94 | a stored key that has not expired is still stored, and still unexpired, after a sweep, whenever removing the other snapshot keys leaves its expiry alone |
| SamplingPolicy.SweepPassesBound | src/main/java/com/github/mchernyakov/variousttlmap/applied/cleaner/AbstractBackgroundMapCleaner.java:90-94 | a sweep makes at most one pass more than there are snapshot keys still in the map, so it always ends |
| SamplingPolicy.SweepQuiet | src/main/java/com/github/mchernyakov/variousttlmap/applied/cleaner/AbstractBackgroundMapCleaner.java:90-94 | when no snapshot key has expired, the sweep is a single pass that changes nothing |
| SamplingPolicy.SweepAsWritten | src/main/java/com/github/mchernyakov/variousttlmap/applied/cleaner/AbstractBackgroundMapCleaner.java:90-94 | the do-while as written, counting every expired probe; with fuel for the number of passes, a finished run made at least one pass and no more than the fuel |
| SamplingPolicy.Snapshot | src/main/java/com/github/mchernyakov/variousttlmap/applied/cleaner/SingleThreadMapCleaner.java:26-29 | a fresh list holds each key of the store exactly once, and its length is the store's size |
| ShardedIndex.JavaRem | src/main/java/com/github/mchernyakov/variousttlmap/applied/PrimitiveMapWrapper.java:32 | Java's `%` truncates: the remainder lies strictly between −n and n, takes the sign of the dividend, and is the dividend itself when that is already in range |
| ShardedIndex.BucketId | src/main/java/com/github/mchernyakov/variousttlmap/applied/PrimitiveMapWrapper.java:31-33 | `getBucketId` is a valid bucket index in [0, numBuckets) |
| ShardedIndex.BucketIdSymmetric | src/main/java/com/github/mchernyakov/variousttlmap/applied/PrimitiveMapWrapper.java:31-33 | the bucket of a hash is that of its negation, namely \|hash\| mod numBuckets |
| ShardedIndex.EmptyShards | src/main/java/com/github/mchernyakov/variousttlmap/applied/PrimitiveMapWrapper.java:21-29 | one empty map per bucket |
| ShardedIndex.Assign | src/main/java/com/github/mchernyakov/variousttlmap/applied/PrimitiveMapWrapper.java:35-44 | after `put(h, v)`, `get(h) == v`; every other hash reads and is held as before; only bucket `getBucketId(h)` changes; entries stay in their own bucket |
| ShardedIndex.Erase | src/main/java/com/github/mchernyakov/variousttlmap/applied/PrimitiveMapWrapper.java:46-55 | after `remove(h)`, `h` is absent and reads 0; other hashes are unchanged; only its bucket changes; removing an absent hash changes nothing |
| ShardedIndex.EraseIdempotent | src/main/java/com/github/mchernyakov/variousttlmap/applied/PrimitiveMapWrapper.java:46-55 | removing twice is removing once |
| ShardedIndex.ClearedReadsZero | src/main/java/com/github/mchernyakov/variousttlmap/applied/PrimitiveMapWrapper.java:68-72 | after `clear` every hash is absent and reads 0 |
| ShardedIndex.PrimitiveMapWrapper.Default | src/main/java/com/github/mchernyakov/variousttlmap/applied/PrimitiveMapWrapper.java:17-19 | the default index has 16 empty buckets |
| ShardedIndex.PrimitiveMapWrapper.constructor | src/main/java/com/github/mchernyakov/variousttlmap/applied/PrimitiveMapWrapper.java:21-29 | `buckets` empty buckets |
| ShardedIndex.PrimitiveMapWrapper.Put | src/main/java/com/github/mchernyakov/variousttlmap/applied/PrimitiveMapWrapper.java:35-44 | the new shards are `Assign` of the old ones |
| ShardedIndex.PrimitiveMapWrapper.Remove | src/main/java/com/github/mchernyakov/variousttlmap/applied/PrimitiveMapWrapper.java:46-55 | the new shards are `Erase` of the old ones |
| ShardedIndex.PrimitiveMapWrapper.Get | src/main/java/com/github/mchernyakov/variousttlmap/applied/PrimitiveMapWrapper.java:57-66 | returns the value held for the hash, 0 if none, and changes nothing |
| ShardedIndex.PrimitiveMapWrapper.Clear | src/main/java/com/github/mchernyakov/variousttlmap/applied/PrimitiveMapWrapper.java:68-72 | every bucket is emptied |
| HashTtlMap.NewConfig | src/main/java/com/github/mchernyakov/variousttlmap/VariousTtlMapImpl.java:129-134 | the builder's defaults: TTL 0, one cleaner, 10 probes, water mark 10, 1000 ms |
| HashTtlMap.OpsRemoveDropsKey | src/main/java/com/github/mchernyakov/variousttlmap/VariousTtlMapImpl.java:82-85 | `remove` drops exactly the given key from the store, as the cleaning policy needs |
| HashTtlMap.AbsentSlotExpiry | src/main/java/com/github/mchernyakov/variousttlmap/VariousTtlMapImpl.java:93-97 | with no slot for the key's hash the deadline reads 0, so the key is expired iff the clock reading is positive |
| HashTtlMap.FetchAfterStored | src/main/java/com/github/mchernyakov/variousttlmap/VariousTtlMapImpl.java:55-74 | after a put with deadline d, `get` returns the value while now ≤ d and null (removing the entry) once now > d |
| HashTtlMap.OtherHashesKeepExpiry | src/main/java/com/github/mchernyakov/variousttlmap/VariousTtlMapImpl.java:66-83 | put and remove of a key with a different hash leave another key's expiry alone |
| HashTtlMap.SharedHashSharesExpiry | src/main/java/com/github/mchernyakov/variousttlmap/VariousTtlMapImpl.java:66-83 | put or remove of a key with an equal hash overwrites or drops the other key's deadline |
| HashTtlMap.OpsKeepExpiry | src/main/java/com/github/mchernyakov/variousttlmap/VariousTtlMapImpl.java:82-97 | removing a key whose hash code differs from a given key's leaves that key's expiry unchanged, so a sweep over keys that do not share its hash code cannot expire it |
| HashTtlMap.RemoveIdempotent | src/main/java/com/github/mchernyakov/variousttlmap/VariousTtlMapImpl.java:82-85 | a second remove changes nothing, and the key is no longer stored |
| HashTtlMap.ExpiryMonotone | src/main/java/com/github/mchernyakov/variousttlmap/VariousTtlMapImpl.java:93-97 | a key that has expired stays expired as the clock advances |
| HashTtlMap.ClearedExpiry | src/main/java/com/github/mchernyakov/variousttlmap/VariousTtlMapImpl.java:88-91 | after `clear` the store is empty and every key reads as expired at a positive clock reading |
| HashTtlMap.VariousTtlMapImpl.constructor | src/main/java/com/github/mchernyakov/variousttlmap/VariousTtlMapImpl.java:35-40 | empty store, 16 empty index buckets, default TTL converted to nanoseconds |
| HashTtlMap.VariousTtlMapImpl.CheckExpired | src/main/java/com/github/mchernyakov/variousttlmap/VariousTtlMapImpl.java:93-97 | the result is `now > slot(hash(key))` |
| HashTtlMap.VariousTtlMapImpl.Get | src/main/java/com/github/mchernyakov/variousttlmap/VariousTtlMapImpl.java:55-62 | new state and result are `Fetch` of the old state: expired ⇒ removed and null, else the stored value and no change |
| HashTtlMap.VariousTtlMapImpl.Put | src/main/java/com/github/mchernyakov/variousttlmap/VariousTtlMapImpl.java:65-68 | deadline now + defaultTtl under the key's hash, value stored, previous value returned |
| HashTtlMap.VariousTtlMapImpl.PutWithTtl | src/main/java/com/github/mchernyakov/variousttlmap/VariousTtlMapImpl.java:71-74 | deadline now + ttl·10⁹ under the key's hash, value stored, previous value returned |
| HashTtlMap.VariousTtlMapImpl.Remove | src/main/java/com/github/mchernyakov/variousttlmap/VariousTtlMapImpl.java:82-85 | hash slot and store entry dropped, previous value returned |
| HashTtlMap.VariousTtlMapImpl.Clear | src/main/java/com/github/mchernyakov/variousttlmap/VariousTtlMapImpl.java:88-91 | store and index emptied |
| HashTtlMap.VariousTtlMapImpl.Size | src/main/java/com/github/mchernyakov/variousttlmap/VariousTtlMapImpl.java:77-79 | the number of stored keys |
| HashTtlMap.VariousTtlMapImpl.IsEmpty | src/main/java/com/github/mchernyakov/variousttlmap/VariousTtlMapImpl.java:114-116 | true iff the store has no key |
| HashTtlMap.Build | src/main/java/com/github/mchernyakov/variousttlmap/VariousTtlMapImpl.java:35-48 | fails with IllegalArgumentException iff the TTL is not positive or the cleaner rejects its settings; otherwise an empty map with TTL·10⁹ ns |
| TtlCache.NewConfig | src/main/java/com/github/mchernyakov/variousttlcache/VariousTtlCacheImpl.java:124-129 | the builder's defaults: one cleaner, everything else 0 |
| TtlCache.OpsRemoveDropsKey | src/main/java/com/github/mchernyakov/variousttlcache/VariousTtlCacheImpl.java:82-85 | `remove` drops exactly the given key from the store |
| TtlCache.RemovedIsExpired | src/main/java/com/github/mchernyakov/variousttlcache/VariousTtlCacheImpl.java:93-97 | a removed key has no deadline and so counts as expired |
| TtlCache.FetchMiss | src/main/java/com/github/mchernyakov/variousttlcache/VariousTtlCacheImpl.java:53-62 | `get` of a key not stored returns null and changes nothing |
| TtlCache.FetchAfterStored | src/main/java/com/github/mchernyakov/variousttlcache/VariousTtlCacheImpl.java:53-73 | after a put with deadline d, `get` returns the value while now ≤ d and null (removing both entries) once now > d |
| TtlCache.OtherKeysUntouched | src/main/java/com/github/mchernyakov/variousttlcache/VariousTtlCacheImpl.java:65-85 | put and remove of one key leave every other key's value and expiry alone |
| TtlCache.OpsKeepExpiry | src/main/java/com/github/mchernyakov/variousttlcache/VariousTtlCacheImpl.java:82-97 | removing any other key leaves a key's expiry unchanged |
| TtlCache.RemoveIdempotent | src/main/java/com/github/mchernyakov/variousttlcache/VariousTtlCacheImpl.java:82-85 | a second remove changes nothing |
| TtlCache.ExpiryMonotone | src/main/java/com/github/mchernyakov/variousttlcache/VariousTtlCacheImpl.java:93-97 | expiry persists as the clock advances |
| TtlCache.VariousTtlCacheImpl.constructor | src/main/java/com/github/mchernyakov/variousttlcache/VariousTtlCacheImpl.java:33-38 | empty maps, TTL in nanoseconds |
| TtlCache.VariousTtlCacheImpl.CheckExpired | src/main/java/com/github/mchernyakov/variousttlcache/VariousTtlCacheImpl.java:93-97 | true iff the key has no deadline or now is past it |
| TtlCache.VariousTtlCacheImpl.Get | src/main/java/com/github/mchernyakov/variousttlcache/VariousTtlCacheImpl.java:53-62 | new state and result are `Fetch` of the old state |
| TtlCache.VariousTtlCacheImpl.Put | src/main/java/com/github/mchernyakov/variousttlcache/VariousTtlCacheImpl.java:65-68 | deadline now + defaultTtl under the key, value stored, previous value returned |
| TtlCache.VariousTtlCacheImpl.PutWithTtl | src/main/java/com/github/mchernyakov/variousttlcache/VariousTtlCacheImpl.java:71-74 | deadline now + ttl·10⁹ under the key, value stored, previous value returned |
| TtlCache.VariousTtlCacheImpl.Remove | src/main/java/com/github/mchernyakov/variousttlcache/VariousTtlCacheImpl.java:82-85 | both entries dropped, previous value returned |
| TtlCache.VariousTtlCacheImpl.Clear | src/main/java/com/github/mchernyakov/variousttlcache/VariousTtlCacheImpl.java:88-91 | both maps emptied |
| TtlCache.VariousTtlCacheImpl.Size | src/main/java/com/github/mchernyakov/variousttlcache/VariousTtlCacheImpl.java:77-79 | the number of stored keys |
| TtlCache.Build | src/main/java/com/github/mchernyakov/variousttlcache/VariousTtlCacheImpl.java:33-46 | fails with IllegalArgumentException iff the TTL is not positive or the cleaner rejects its settings |
| TimestampTtlMap.NewConfig | src/main/java/com/github/mchernyakov/variousttlcache/VariousTtlMapImpl.java:127-132 | the builder's defaults: all 0 |
| TimestampTtlMap.ExpiryWindow | src/main/java/com/github/mchernyakov/variousttlcache/VariousTtlMapImpl.java:68-99 | after a put at clock c with TTL t seconds, the key is expired iff now − c > t·10⁹ |
| TimestampTtlMap.FetchAfterStored | src/main/java/com/github/mchernyakov/variousttlcache/VariousTtlMapImpl.java:50-73 | after a put, `get` returns the value inside the window and null (removing the entry) past it |
| TimestampTtlMap.RemovedIsExpired | src/main/java/com/github/mchernyakov/variousttlcache/VariousTtlMapImpl.java:94-99 | a removed key has no timestamp and so counts as expired |
| TimestampTtlMap.RemoveIdempotent | src/main/java/com/github/mchernyakov/variousttlcache/VariousTtlMapImpl.java:81-85 | a second remove changes nothing |
| TimestampTtlMap.FetchMiss | src/main/java/com/github/mchernyakov/variousttlcache/VariousTtlMapImpl.java:50-59 | `get` of a key not stored returns null and changes nothing |
| TimestampTtlMap.OtherKeysUntouched | src/main/java/com/github/mchernyakov/variousttlcache/VariousTtlMapImpl.java:62-85 | put and remove of one key leave every other key's value and expiry alone |
| TimestampTtlMap.VariousTtlMapImpl.constructor | src/main/java/com/github/mchernyakov/variousttlcache/VariousTtlMapImpl.java:30-36 | three empty maps, TTL in nanoseconds |
| TimestampTtlMap.VariousTtlMapImpl.CheckExpired | src/main/java/com/github/mchernyakov/variousttlcache/VariousTtlMapImpl.java:94-99 | true iff the timestamp or the TTL is missing or now − timestamp > ttl |
| TimestampTtlMap.VariousTtlMapImpl.Get | src/main/java/com/github/mchernyakov/variousttlcache/VariousTtlMapImpl.java:50-59 | new state and result are `Fetch` of the old state |
| TimestampTtlMap.VariousTtlMapImpl.Put | src/main/java/com/github/mchernyakov/variousttlcache/VariousTtlMapImpl.java:62-66 | timestamp now, TTL defaultTtl, value stored, previous value returned |
| TimestampTtlMap.VariousTtlMapImpl.PutWithTtl | src/main/java/com/github/mchernyakov/variousttlcache/VariousTtlMapImpl.java:69-73 | timestamp now, TTL ttl·10⁹, value stored, previous value returned |
| TimestampTtlMap.VariousTtlMapImpl.Remove | src/main/java/com/github/mchernyakov/variousttlcache/VariousTtlMapImpl.java:81-85 | all three entries dropped, previous value returned |
| TimestampTtlMap.VariousTtlMapImpl.Clear | src/main/java/com/github/mchernyakov/variousttlcache/VariousTtlMapImpl.java:88-92 | all three maps emptied |
| TimestampTtlMap.VariousTtlMapImpl.Size | src/main/java/com/github/mchernyakov/variousttlcache/VariousTtlMapImpl.java:76-78 | the number of stored keys |
| TimestampTtlMap.Build | src/main/java/com/github/mchernyakov/variousttlcache/VariousTtlMapImpl.java:30-44 | fails with IllegalArgumentException iff the TTL is not positive or the cleaner rejects its settings |
| Chunking.Chunks | src/main/java/com/github/mchernyakov/variousttlmap/applied/cleaner/MultiThreadMapCleaner.java:62-74 | exactly poolSize chunks; chunk c holds, in order, the keys whose position is c mod poolSize |
| Chunking.BuildChunks | src/main/java/com/github/mchernyakov/variousttlmap/applied/cleaner/MultiThreadMapCleaner.java:62-74 | the counter loop builds exactly `Chunks(keys, poolSize)` |
| Chunking.ChunkLength | src/main/java/com/github/mchernyakov/variousttlmap/applied/cleaner/MultiThreadMapCleaner.java:66-70 | chunk c has \|keys\|/p keys, plus one if c < \|keys\| mod p |
| Chunking.ChunksBalanced | src/main/java/com/github/mchernyakov/variousttlmap/applied/cleaner/MultiThreadMapCleaner.java:66-70 | chunk sizes differ by at most one, and an earlier chunk is never shorter |
| Chunking.ChunkStrided | src/main/java/com/github/mchernyakov/variousttlmap/applied/cleaner/MultiThreadMapCleaner.java:62-73 | chunk c is exactly the keys at positions c, c + p, c + 2p, ... in order |
| Chunking.ChunkPosition | src/main/java/com/github/mchernyakov/variousttlmap/applied/cleaner/MultiThreadMapCleaner.java:66-70 | the key at position i is entry i/p of chunk i mod p |
| Chunking.ChunksPartition | src/main/java/com/github/mchernyakov/variousttlmap/applied/cleaner/MultiThreadMapCleaner.java:66-70 | the chunks together hold exactly the keys, as a multiset, and their lengths sum to \|keys\| |
| Chunking.TenKeysThreeChunks | src/test/java/com/github/mchernyakov/variousttlmap/applied/cleaner/AbstractBackgroundMapCleanerTest.java:96-101 | 10 keys, pool 3: [0,3,6,9], [1,4,7], [2,5,8] |
| Chunking.ElevenKeysTwoChunks | src/test/java/com/github/mchernyakov/variousttlmap/applied/cleaner/AbstractBackgroundMapCleanerTest.java:122-126 | 11 keys, pool 2: the evens, then the odds |
| Chunking.OfferAll | src/main/java/com/github/mchernyakov/variousttlmap/applied/cleaner/MultiThreadMapCleaner.java:55-59 | offering a list of chunks succeeds iff all fit; on success they are appended; on overflow the queue holds what fitted and IllegalStateException is raised |
| Chunking.GetKeysAsWritten | src/main/java/com/github/mchernyakov/variousttlmap/applied/cleaner/MultiThreadMapCleaner.java:42-59 | `getKeys` as written: with the flag down, offer the new chunks onto whatever the queue holds |
| Chunking.GetKeys | src/main/java/com/github/mchernyakov/variousttlmap/applied/cleaner/MultiThreadMapCleaner.java:42-53 | afterwards the flag is up; with the flag already up it only polls the head (null on an empty queue) and never rebuilds |
| Chunking.GetKeysAgreesOnEmptyQueue | src/main/java/com/github/mchernyakov/variousttlmap/applied/cleaner/MultiThreadMapCleaner.java:42-59 | on an empty queue the corrected `getKeys` is the written one |
| Chunking.StaleQueueRebuildFails | src/main/java/com/github/mchernyakov/variousttlmap/applied/cleaner/MultiThreadMapCleaner.java:55-59 | as written, a rebuild onto a queue still holding a chunk throws IllegalStateException |
| Chunking.StaleChunkOverflow | src/main/java/com/github/mchernyakov/variousttlmap/applied/cleaner/MultiThreadMapCleaner.java:42-81 | pool 2, empty store: the first round returns an empty chunk and leaves one behind; the next rebuild throws, the corrected one does not |
| Chunking.DrainQueue | src/main/java/com/github/mchernyakov/variousttlmap/applied/cleaner/MultiThreadMapCleaner.java:52 | with the flag up, n+1 calls on a queue of n chunks return them in order, then null |
| Chunking.RoundYieldsEachChunkOnce | src/main/java/com/github/mchernyakov/variousttlmap/applied/cleaner/MultiThreadMapCleaner.java:42-53 | from a lowered flag, poolSize calls return chunks 0..poolSize−1 of the snapshot in order, and the next call returns null |
| MapCleaning.HashSweep | src/main/java/com/github/mchernyakov/variousttlmap/applied/cleaner/AbstractBackgroundMapCleaner.java:90-94 | a sweep of the hash-keyed map makes at least one pass and removes only snapshot keys; a stored key that has not expired, and whose hash code no other snapshot key shares, is still stored and unexpired afterwards (corrected as in Findings row 1: repeats on evictions, not on expired probes) |
| MapCleaning.HashSweepKeepsLive | src/main/java/com/github/mchernyakov/variousttlmap/applied/cleaner/AbstractBackgroundMapCleaner.java:90-94 | a stored key that has not expired, and whose hash code no other snapshot key shares, survives a sweep unexpired |
| MapCleaning.HashSweeps | src/main/java/com/github/mchernyakov/variousttlmap/applied/cleaner/AbstractBackgroundMapCleaner.java:83-99 | the map after the sweeps of a task run: each list swept, in order, on what the earlier sweeps left; keys only shrink |
| MapCleaning.HashSweepsSnoc | src/main/java/com/github/mchernyakov/variousttlmap/applied/cleaner/AbstractBackgroundMapCleaner.java:83-99 | the sweeps over one more list are the sweeps over the earlier lists followed by the sweep of that list |
| MapCleaning.SnapshotRoundsSnoc | src/main/java/com/github/mchernyakov/variousttlmap/applied/cleaner/AbstractBackgroundMapCleaner.java:83-88 | a fresh, non-empty snapshot of the store the earlier rounds left extends a run of single-worker rounds by one |
| MapCleaning.SnapshotRoundsKeepLive | src/main/java/com/github/mchernyakov/variousttlmap/applied/cleaner/AbstractBackgroundMapCleaner.java:83-99 | when every list swept is a fresh snapshot of the store, a stored key that has not expired, and whose hash code no other stored key shares, is still stored and unexpired after any number of rounds |
| MapCleaning.SweepRound | src/main/java/com/github/mchernyakov/variousttlmap/applied/cleaner/AbstractBackgroundMapCleaner.java:90-94 | one more round: the map becomes the sweeps of the earlier lists followed by the sweep of this one |
| MapCleaning.CheckRandomKey | src/main/java/com/github/mchernyakov/variousttlmap/applied/cleaner/AbstractBackgroundMapCleaner.java:138-150 | the map's new state and the verdict are those of `Probe`: removal exactly when `checkExpired` holds |
| MapCleaning.TryRemoveKeys | src/main/java/com/github/mchernyakov/variousttlmap/applied/cleaner/AbstractBackgroundMapCleaner.java:121-132 | the loop ends in the state of `Pass` with its count, which lies in [0, min(numKeyCheck, size)]; it also returns the number of probes that evicted a stored entry, a counter the source does not keep, which the corrected do-while of Findings row 1 repeats on |
| MapCleaning.CleanSnapshot | src/main/java/com/github/mchernyakov/variousttlmap/applied/cleaner/AbstractBackgroundMapCleaner.java:90-94 | the do-while ends in the state of `HashSweep`, after the same number of passes (corrected as in Findings row 1: repeats on evictions, not on expired probes) |
| AppliedCleaner.SelectMode | src/main/java/com/github/mchernyakov/variousttlmap/applied/cleaner/BackgroundMapCleaner.java:54-58 | multi-worker iff accepted and poolSize > 1; single-worker iff accepted and poolSize = 1; IllegalArgumentException iff rejected |
| AppliedCleaner.SingleThreadMapCleaner.GetKeys | src/main/java/com/github/mchernyakov/variousttlmap/applied/cleaner/SingleThreadMapCleaner.java:26-29 | a fresh snapshot of the current store, each key once, never null |
| AppliedCleaner.SingleThreadMapCleaner.Task | src/main/java/com/github/mchernyakov/variousttlmap/applied/cleaner/AbstractBackgroundMapCleaner.java:72-107 | the map is the sweeps of the snapshots taken, in order, each a fresh non-empty snapshot of the store as the earlier sweeps left it; the run ends on an empty snapshot exactly when the store is empty, else at the bound after `maxRounds` sweeps; a stored key that has not expired, with a hash code no other stored key shares, forces the bound; an empty store is left unchanged (corrected as in Findings row 1: repeats on evictions, not on expired probes) |
| AppliedCleaner.SingleThreadMapCleaner.constructor | src/main/java/com/github/mchernyakov/variousttlmap/applied/cleaner/SingleThreadMapCleaner.java:11-13 | the cleaner keeps its map and its accepted settings |
| AppliedCleaner.MultiThreadMapCleaner.constructor | src/main/java/com/github/mchernyakov/variousttlmap/applied/cleaner/MultiThreadMapCleaner.java:21-26 | an empty queue of capacity poolSize and a lowered flag |
| AppliedCleaner.MultiThreadMapCleaner.AdditionalFinally | src/main/java/com/github/mchernyakov/variousttlmap/applied/cleaner/MultiThreadMapCleaner.java:34-39 | the flag is lowered iff no party is still in the round; the queue is unchanged |
| AppliedCleaner.MultiThreadMapCleaner.OfferChunk | src/main/java/com/github/mchernyakov/variousttlmap/applied/cleaner/MultiThreadMapCleaner.java:76-81 | append at the tail iff the queue is below capacity, else IllegalStateException and no change |
| AppliedCleaner.MultiThreadMapCleaner.InitAndPutChunks | src/main/java/com/github/mchernyakov/variousttlmap/applied/cleaner/MultiThreadMapCleaner.java:55-59 | the queue holds exactly the chunks of a snapshot of the store (corrected: stale chunks are dropped first) |
| AppliedCleaner.MultiThreadMapCleaner.GetKeys | src/main/java/com/github/mchernyakov/variousttlmap/applied/cleaner/MultiThreadMapCleaner.java:42-53 | flag, queue and result follow `Chunking.GetKeys` on a snapshot of the store |
| AppliedCleaner.MultiThreadMapCleaner.PollChunk | src/main/java/com/github/mchernyakov/variousttlmap/applied/cleaner/MultiThreadMapCleaner.java:42-53 | with the flag up, `getKeys` hands out the head of the queue: the chunk returned followed by the new queue is the old queue |
| AppliedCleaner.MultiThreadMapCleaner.SweepChunks | src/main/java/com/github/mchernyakov/variousttlmap/applied/cleaner/AbstractBackgroundMapCleaner.java:83-99 | the loop sweeps the polled chunks in order until null or an empty chunk: swept chunks, then the empty one if any, then the queue left are the chunks that were pending; the map is the sweeps of the swept chunks (corrected as in Findings row 1: repeats on evictions, not on expired probes) |
| AppliedCleaner.MultiThreadMapCleaner.Task | src/main/java/com/github/mchernyakov/variousttlmap/applied/cleaner/AbstractBackgroundMapCleaner.java:72-107 | the run polls from the old queue when the flag was up, else from the chunks of a snapshot of the store; the chunks swept are that queue's heads in order, all non-empty, followed by the empty chunk it stopped on, if any, and the queue left; the map is the sweeps of those chunks; it ends on null only with the queue drained, and leaves the flag lowered iff it was the last party (corrected as in Findings row 1: repeats on evictions, not on expired probes) |
| AppliedCleaner.Builder.constructor | src/main/java/com/github/mchernyakov/variousttlmap/applied/cleaner/BackgroundMapCleaner.java:14-17 | the pool size defaults to 1 and everything else to 0 |
| AppliedCleaner.Builder.SetDelayTime | src/main/java/com/github/mchernyakov/variousttlmap/applied/cleaner/BackgroundMapCleaner.java:28-31 | sets only its own field and returns the same builder |
| AppliedCleaner.Builder.SetPoolSize | src/main/java/com/github/mchernyakov/variousttlmap/applied/cleaner/BackgroundMapCleaner.java:33-36 | sets only its own field and returns the same builder |
| AppliedCleaner.Builder.SetNumKeyCheck | src/main/java/com/github/mchernyakov/variousttlmap/applied/cleaner/BackgroundMapCleaner.java:38-41 | sets only its own field and returns the same builder |
| AppliedCleaner.Builder.SetPercentWaterMark | src/main/java/com/github/mchernyakov/variousttlmap/applied/cleaner/BackgroundMapCleaner.java:43-46 | sets only its own field and returns the same builder |
| AppliedCleaner.Builder.Build | src/main/java/com/github/mchernyakov/variousttlmap/applied/cleaner/BackgroundMapCleaner.java:48-59 | NullPointerException for a null map; otherwise IllegalArgumentException for rejected settings, else a fresh multi-worker cleaner iff poolSize > 1 and a single-worker one otherwise |
| LegacyMapCleaner.BackgroundMapCleaner.constructor | src/main/java/com/github/mchernyakov/variousttlmap/BackgroundMapCleaner.java:58-78 | multi-worker mode iff poolSize > 1; an empty queue of capacity poolSize |
| LegacyMapCleaner.BackgroundMapCleaner.OfferChunk | src/main/java/com/github/mchernyakov/variousttlmap/BackgroundMapCleaner.java:174-179 | append iff below capacity, else IllegalStateException |
| LegacyMapCleaner.BackgroundMapCleaner.InitAndPutChunks | src/main/java/com/github/mchernyakov/variousttlmap/BackgroundMapCleaner.java:153-157 | the queue holds exactly the chunks of a snapshot of the store (corrected as in Findings row 2: stale chunks are dropped first) |
| LegacyMapCleaner.BackgroundMapCleaner.GetKeys | src/main/java/com/github/mchernyakov/variousttlmap/BackgroundMapCleaner.java:134-151 | single mode: a fresh snapshot offered and polled back, never null, queue left empty; multi mode: `Chunking.GetKeys` |
| LegacyMapCleaner.BackgroundMapCleaner.PollChunk | src/main/java/com/github/mchernyakov/variousttlmap/BackgroundMapCleaner.java:135-151 | in multi mode with the flag up, `getKeys` hands out the head of the queue: the chunk returned followed by the new queue is the old queue |
| LegacyMapCleaner.BackgroundMapCleaner.SweepSnapshots | src/main/java/com/github/mchernyakov/variousttlmap/BackgroundMapCleaner.java:100-119 | single mode: the map is the sweeps of the snapshots taken, each a fresh non-empty snapshot of the store as the earlier sweeps left it; ends on an empty snapshot exactly when the store is empty, else at the bound (corrected as in Findings row 1: repeats on evictions, not on expired probes) |
| LegacyMapCleaner.BackgroundMapCleaner.SweepChunks | src/main/java/com/github/mchernyakov/variousttlmap/BackgroundMapCleaner.java:100-119 | multi mode: swept chunks, then the empty one if any, then the queue left are the chunks that were pending; the map is the sweeps of the swept chunks (corrected as in Findings row 1: repeats on evictions, not on expired probes) |
| LegacyMapCleaner.BackgroundMapCleaner.Task | src/main/java/com/github/mchernyakov/variousttlmap/BackgroundMapCleaner.java:90-132 | the map is the sweeps of the lists taken, in order; single mode never sees null, takes fresh snapshots, ends on an empty one exactly when the store is empty, and a live key with a hash code of its own forces the bound; multi mode polls the old queue or the chunks of a snapshot, sweeps its non-empty heads in order, ends on null only with the queue drained, and lowers the flag iff it was the last party (corrected as in Findings row 1: repeats on evictions, not on expired probes) |
| LegacyMapCleaner.Builder.constructor | src/main/java/com/github/mchernyakov/variousttlmap/BackgroundMapCleaner.java:230-241 | every setting starts at 0 |
| LegacyMapCleaner.Builder.SetPoolSize | src/main/java/com/github/mchernyakov/variousttlmap/BackgroundMapCleaner.java:248-251 | sets only its own field and returns the same builder |
| LegacyMapCleaner.Builder.Build | src/main/java/com/github/mchernyakov/variousttlmap/BackgroundMapCleaner.java:263-269 | NullPointerException for a null map, IllegalArgumentException for rejected settings, else a fresh cleaner in the mode the pool size selects |
| CacheCleaner.CacheSweep | src/main/java/com/github/mchernyakov/variousttlcache/BackgroundMapCleaner.java:82-85 | a sweep of the cache makes at least one pass and removes only snapshot keys; every stored key that has not expired is still stored and unexpired afterwards (corrected as in Findings row 1: repeats on evictions, not on expired probes) |
| CacheCleaner.CacheSweepKeepsLive | src/main/java/com/github/mchernyakov/variousttlcache/BackgroundMapCleaner.java:82-85 | every stored key that has not expired survives a sweep of the cache unexpired |
| CacheCleaner.BackgroundMapCleaner.CheckRandomKey | src/main/java/com/github/mchernyakov/variousttlcache/BackgroundMapCleaner.java:118-130 | the new cache state and the verdict are those of `Probe` |
| CacheCleaner.BackgroundMapCleaner.TryRemoveKeys | src/main/java/com/github/mchernyakov/variousttlcache/BackgroundMapCleaner.java:102-116 | the loop ends in the state of `Pass` with its count, which lies in [0, min(numKeyCheck, size)]; it also returns the number of probes that evicted a stored entry, a counter the source does not keep, which the corrected do-while of Findings row 1 repeats on |
| CacheCleaner.BackgroundMapCleaner.CleanSnapshot | src/main/java/com/github/mchernyakov/variousttlcache/BackgroundMapCleaner.java:82-85 | the do-while ends in the state of `CacheSweep` (corrected as in Findings row 1: repeats on evictions, not on expired probes) |
| CacheCleaner.BackgroundMapCleaner.Task | src/main/java/com/github/mchernyakov/variousttlcache/BackgroundMapCleaner.java:67-95 | exactly one snapshot; an empty one means no pass and no change; otherwise the state is that of the sweep of that snapshot (corrected as in Findings row 1: repeats on evictions, not on expired probes) |
| CacheCleaner.Builder.Build | src/main/java/com/github/mchernyakov/variousttlcache/BackgroundMapCleaner.java:179-183 | NullPointerException for a null cache, IllegalArgumentException for rejected settings |
| CacheCleaner.AsWrittenKeepsGoing | src/main/java/com/github/mchernyakov/variousttlcache/BackgroundMapCleaner.java:82-85 | from any state where key 1 has expired, the do-while as written is never finished, whatever the fuel |
| CacheCleaner.SweepAsWrittenNeverEnds | src/main/java/com/github/mchernyakov/variousttlcache/BackgroundMapCleaner.java:82-85 | the do-while as written never ends on the store {1: 10, 2: 20}, deadlines {1: 0, 2: 100}, clock 50 |
| CacheCleaner.CorrectedSweepEnds | src/main/java/com/github/mchernyakov/variousttlcache/BackgroundMapCleaner.java:82-85 | counting evictions, the same sweep ends after two passes with only key 2 left |

## Left out

- Scheduling and shutdown (`startCleaners`, `scheduleAtFixedRate`, `shutdown`, `ThreadUtil`). These are thread-pool plumbing; a task run is a method call.
- The `Phaser` of the multi-worker cleaners. `AdditionalInit` changes nothing, and `AdditionalFinally` takes the `getArrivedParties() == 0` verdict as the argument `noArrivedParties`.
- `volatile`, `synchronized`, the read/write locks of `PrimitiveMapWrapper`, and `ConcurrentHashMap`'s thread safety. The model is sequential.
- Reading the live key set while chunks are built. The model takes a snapshot; the order of a set's iteration is left open by `Snapshot`.
- Floating point in `checkExcessWaterMark`. The test is the exact integer comparison, shown equal to the exact real percentage.
- Overflow of `int` and `long`: `100·numDone`, `now + ttl`, and the saturation of `TimeUnit.toNanos`. Integers are unbounded.
- `Math.abs(Integer.MIN_VALUE % n)`. This cannot overflow, since the remainder is smaller than n.
- `System.nanoTime()`. It is the parameter `now`, read once per operation, and once per cleaner task.
- `ThreadLocalRandom`. It is the draw oracle `rng`.
- `hashCode`. It is the parameter `hash`.
- The `catch` that logs and rethrows, and logging and `toString`. They change no state of the model.
- Null keys and values. `ConcurrentHashMap` rejects them, so a stored value is never null.
- The facades' cleaner field and its start. `Build` of each facade performs the cleaner constructor's argument check, and the cleaners are modelled on their own.
- `PrimitiveMapWrapper`'s constructor with zero or fewer buckets. Its `requires` asks for at least one bucket, since `getBucketId` would divide by zero.
- The interfaces `VariousTtlMap` and `VariousTtlCache`, and the `Preconditions` helpers. These appear as `requires` or error results.
- `variousttlcache.VariousTtlMapImpl` hands itself to a cleaner builder that accepts only a `VariousTtlCacheImpl`. The timestamp map is therefore modelled without a cleaner, and its `Build` performs the argument checks only.
- AppliedCleaner.SingleThreadMapCleaner.Task: stops after `maxRounds` sweeps with `OutOfRounds`. The source loops until a snapshot comes back empty. A sweep never removes a key that has not expired, so a single live key keeps every snapshot non-empty and the source re-snapshots and re-sweeps without pause until that key's deadline passes; the `ensures` on such a key states this.
- LegacyMapCleaner.BackgroundMapCleaner.Task: in single-worker mode it is bounded by `maxRounds` for the same reason. In multi-worker mode no bound is needed: the loop ends once the queue is drained. The source's one loop is modelled as one loop per mode, since `getKeys` behaves differently in each.
- SamplingPolicy.SweepAsWritten: follows at most `fuel` passes. The code's own loop need not end (see Findings), so only the runs it finishes are stated.
- The legacy and cache builders' other setters (`SetDelayTime`, `SetNumKeyCheck`, `SetPercentWaterMark`) have the same one-field contract as `SetPoolSize` and get no rows of their own.

## Findings

| source | as written | input that shows it | evidently intended | confidence | as-written member | corrected member |
|---|---|---|---|---|---|---|
| src/main/java/com/github/mchernyakov/variousttlcache/BackgroundMapCleaner.java:82-85 | each pass counts every probe that finds its key expired, and a key an earlier pass removed still reads as expired; the do-while repeats on that count over the same snapshot. The same loop is in AbstractBackgroundMapCleaner.java:90-94 and the legacy BackgroundMapCleaner.java:110-114 | cache {1: 10, 2: 20}, deadlines {1: 0, 2: 100}, clock 50, numKeyCheck 1, water mark 10: every pass probes index 0 (`nextInt(1)`), counts 1 of 2 = 50 %, and repeats forever | repeat only while passes keep evicting keys that are still stored, so the sweep ends | not executed | SamplingPolicy.SweepAsWritten, CacheCleaner.SweepAsWrittenNeverEnds | SamplingPolicy.Sweep, CacheCleaner.CorrectedSweepEnds, MapCleaning.HashSweep, MapCleaning.CleanSnapshot, CacheCleaner.CacheSweep, CacheCleaner.BackgroundMapCleaner.CleanSnapshot |
| src/main/java/com/github/mchernyakov/variousttlmap/applied/cleaner/MultiThreadMapCleaner.java:55-59 | a round that ends on an empty chunk leaves the later chunks in the queue; when the flag is lowered, the rebuild offers poolSize new chunks into that queue of capacity poolSize. The legacy BackgroundMapCleaner.java:153-157 rebuilds the same way | pool 2, empty store, two successive task runs: the first leaves one empty chunk behind, and the second run's rebuild throws IllegalStateException | each rebuild starts from an empty queue | not executed | Chunking.GetKeysAsWritten, Chunking.StaleChunkOverflow | Chunking.GetKeys, AppliedCleaner.MultiThreadMapCleaner.InitAndPutChunks, LegacyMapCleaner.BackgroundMapCleaner.InitAndPutChunks |
