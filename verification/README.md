# Magazine: a model of the Aerospike-backed sharded queue

Magazine is a library of durable queues ("magazines"). Each queue is identified by a
string. It is spread over one or more shards, and its records live in an Aerospike
key-value store. A client *loads* items, *fires* them (takes the oldest pending item of
a randomly chosen active shard), *reloads* items at the end of a queue, *deletes* fired
items, *peeks* at chosen positions and reads each shard's *metadata*.

Every shard has two records:
- a pointer record, with bins `LOAD_POINTER` and `FIRE_POINTER`;
- a counter record, with bins `LOAD_COUNTER` and `FIRE_COUNTER`.

The item loaded at position `p` of a shard is the data record keyed
`<id>_SHARD_<i>_<p>`, or `<id>_<p>` when the magazine has one shard. The store also
holds two other kinds of entry:
- existence-only dedupe markers;
- the ids of the locks currently held by the distributed lock manager.

The model has three layers.

1. **Values and pure rules** (`Text`, `Errors`, `Keys`, `Records`, `Scope`,
   `BaseStorage`):
   - key and label builders;
   - the error classification;
   - the scope helpers;
   - the shard clamp.
2. **The store protocol** (`Kv`, `Protocol`). The store is a value `Store` with four
   parts: `meta`, `data`, `markers` and `locks`. Each engine operation is a function from
   the store before the call, the random draw and the failures met, to the store after
   the call and the outcome:
   - `LoadOp`, `ReloadOp`;
   - `FireAttempt` and `FireRounds`;
   - `GetMetaDataOp`, `PeekOp`, `DeleteOp`.

   `Settings.scheme` chooses how dedupe marker keys are built. The engine uses
   `AsWritten`, the identifier directly followed by the data text, as the code does.
   `LengthPrefixed` is the corrected key described under Findings.

   The lemmas about these functions (`QueueLemmas`, `FireLemmas`, `ViewLemmas`,
   `OrderLemmas`, `DedupeLemmas`, and those in `Magazines` and `Manager`) state what the library
   promises. They view a shard as its queue: `Pending(s, id, shard)` is the list of data
   slots strictly after the fire pointer, up to and including the load pointer.
3. **The objects**, written imperatively:
   - `Kv.KvClient` stands in for the Aerospike client and the lock manager;
   - `Engine.AerospikeStorage`;
   - `Magazines.Magazine`;
   - `Manager.MagazineManager`.

   Each method is proved to leave exactly the store and result of its protocol function.
   Two methods loop as the source does:
   - `AerospikeStorage.Fire` is the fire retryer's loop.
   - `MagazineManager.Refresh` is the `forEach` of `put`s.

Failures of the Aerospike client are a parameter. `Fault` names at most one step of a
call and what happened there:
- the bounded retryer gave up (`RetryException`);
- the call failed (`ExecutionException`);
- an add-and-get returned no record.

The random shard of a load is a parameter `draw`. Each pass of the fire loop is a
`Round`, which holds:
- the active-shard list the cache returned;
- the random pick;
- the failure met in that pass.

## Model

Source paths are relative to the repository root.

| member | source | states |
|---|---|---|
| Errors.PropagateWith | src/main/java/com/phonepe/magazine/exception/MagazineException.java:39-46 | A MagazineException comes back as itself. Otherwise a MagazineException cause comes back as that cause. Otherwise the result is a new INTERNAL_ERROR with the given message and the throwable as its cause. |
| Errors.Propagate | src/main/java/com/phonepe/magazine/exception/MagazineException.java:35-37 | The one-argument form is the two-argument form with message "Error occurred". |
| Errors.PropagateIdempotent | src/main/java/com/phonepe/magazine/exception/MagazineException.java:39-46 | Propagating an already-propagated exception returns it unchanged. |
| Keys.CreateKey | src/main/java/com/phonepe/magazine/impl/aerospike/AerospikeStorage.java:464-475 | A sharded key is `id_SHARD_<shard>_suffix`. An unsharded key is `id_suffix`. |
| Keys.CreateKeySameId | src/main/java/com/phonepe/magazine/impl/aerospike/AerospikeStorage.java:464-475 | Within one magazine and one sharding mode, two keys are equal iff their shards and suffixes are equal. |
| Keys.DataKeyInjective | src/main/java/com/phonepe/magazine/impl/aerospike/AerospikeStorage.java:464-475 | Within one magazine, distinct (shard, position) pairs have distinct data keys, so no load overwrites another slot. |
| Keys.CreateKeyInjective | src/main/java/com/phonepe/magazine/impl/aerospike/AerospikeStorage.java:464-475 | For identifiers and suffixes without `_`, equal keys mean equal identifier, shard and suffix. |
| Keys.ShardLabel | src/main/java/com/phonepe/magazine/impl/aerospike/AerospikeStorage.java:187-190 | The metadata label of shard i is `SHARD_<i>`. |
| Keys.ShardLabelInjective | src/main/java/com/phonepe/magazine/impl/aerospike/AerospikeStorage.java:187-190 | Distinct shards have distinct labels. |
| Keys.ShardOfShardLabel | src/main/java/com/phonepe/magazine/impl/aerospike/AerospikeStorage.java:444-447 | Splitting a label at `_` and parsing the second field gives back the shard number, for every 32-bit shard. |
| Keys.ShardOfLabel | src/main/java/com/phonepe/magazine/impl/aerospike/AerospikeStorage.java:444-447 | Fire's reading of a label: the second `_`-separated field parsed as a 32-bit int. A label with fewer than two fields gives no shard. |
| Keys.LockId | src/main/java/com/phonepe/magazine/impl/aerospike/AerospikeStorage.java:112-113 | The lock id of load and reload is the identifier, `_`, then the data text. |
| Keys.DeDupeKeyAsWritten | src/main/java/com/phonepe/magazine/impl/aerospike/AerospikeStorage.java:527-534 | The engine's marker key is the identifier immediately followed by the data text, with no separator. |
| Keys.DeDupeKey | src/main/java/com/phonepe/magazine/impl/aerospike/AerospikeStorage.java:527-534 | The corrected marker key is longer than identifier plus data, and ends with the identifier followed by the data text. The prefix is the identifier's length. |
| Keys.DeDupeKeyAsWrittenCollides | src/main/java/com/phonepe/magazine/impl/aerospike/AerospikeStorage.java:527-534 | The marker key as written (identifier directly followed by the data text) is the same for magazine "A" with data "B1" and magazine "AB" with data "1". |
| Keys.DeDupeKeyInjective | src/main/java/com/phonepe/magazine/impl/aerospike/AerospikeStorage.java:527-534 | The corrected marker key (length-prefixed identifier) is equal for two (identifier, data) pairs iff the pairs are equal. |
| Records.CreateAerospikeKey | src/main/java/com/phonepe/magazine/common/MagazineData.java:39-43 | The deletion key of an item is the engine's data key for its identifier, shard and fire pointer. It never depends on the data. |
| Records.ActiveLabels | src/main/java/com/phonepe/magazine/impl/aerospike/AerospikeStorage.java:566-574 | A label is active iff it is in the metadata and its shard has loadCounter > fireCounter and loadPointer > firePointer. |
| Scope.ResolveLockLevel | src/main/java/com/phonepe/magazine/util/CommonUtils.java:30-42 | LOCAL gives DC and GLOBAL gives XDC, both directions. |
| Scope.ValidateMagazineScope | src/main/java/com/phonepe/magazine/util/CommonUtils.java:44-51 | Fails iff the scope is GLOBAL, and then with NOT_IMPLEMENTED. |
| Scope.ResolveSetName | src/main/java/com/phonepe/magazine/util/CommonUtils.java:53-70 | GLOBAL keeps the set name. LOCAL gives the farm id, `_`, then the set name. |
| Scope.LocalSetNamesSeparateFarms | src/main/java/com/phonepe/magazine/util/CommonUtils.java:58-61 | For farm ids without `_`, two LOCAL set names are equal iff their farms and set names are equal. |
| BaseStorage.ClampShards | src/main/java/com/phonepe/magazine/core/BaseMagazineStorage.java:57-59 | A requested count below 1 becomes MIN_SHARDS (1). Any other count is kept. |
| BaseStorage.NewBaseMagazineStorage | src/main/java/com/phonepe/magazine/core/BaseMagazineStorage.java:43-64 | Construction succeeds iff the scope is LOCAL, and fails with NOT_IMPLEMENTED otherwise. On success every field is stored as given, with the shard count clamped to at least 1. |
| Kv.ReadMetaBatch | src/main/java/com/phonepe/magazine/impl/aerospike/AerospikeStorage.java:175-185 | A batch read returns one entry per key, in key order. |
| Kv.KvClient.Operate | src/main/java/com/phonepe/magazine/impl/aerospike/AerospikeStorage.java:323-347 | Add-and-get on a bin changes the store and returns exactly what `OperateAdd` describes. |
| Kv.KvClient.GetMeta | src/main/java/com/phonepe/magazine/impl/aerospike/AerospikeStorage.java:280-285 | A record read returns `ReadMeta` of the current store. |
| Kv.KvClient.PutMeta | src/main/java/com/phonepe/magazine/Magazine.java:130-147 | A metadata write leaves `WriteMeta` of the old store. |
| Kv.KvClient.GetMetaBatch | src/main/java/com/phonepe/magazine/impl/aerospike/AerospikeStorage.java:175-185 | The batch read, one key at a time, returns `ReadMetaBatch` of the store. |
| Kv.KvClient.Get | src/main/java/com/phonepe/magazine/impl/aerospike/AerospikeStorage.java:311-321 | A data read returns `ReadData` of the store. |
| Kv.KvClient.GetBatch | src/main/java/com/phonepe/magazine/impl/aerospike/AerospikeStorage.java:236-242 | A batch data read returns `ReadDataBatch` of the store. |
| Kv.KvClient.Put | src/main/java/com/phonepe/magazine/impl/aerospike/AerospikeStorage.java:257-270 | A data write leaves `WriteData` of the old store. It is a plain overwrite. |
| Kv.KvClient.Delete | src/main/java/com/phonepe/magazine/impl/aerospike/AerospikeStorage.java:210-224 | A data delete leaves `RemoveData` of the old store. |
| Kv.KvClient.Exists | src/main/java/com/phonepe/magazine/impl/aerospike/AerospikeStorage.java:503-510 | A marker check returns `HasMarker` of the store. |
| Kv.KvClient.PutMarker | src/main/java/com/phonepe/magazine/impl/aerospike/AerospikeStorage.java:512-525 | A marker write leaves `WriteMarker` of the old store. |
| Kv.KvClient.TryAcquireLock | src/main/java/com/phonepe/magazine/impl/aerospike/AerospikeStorage.java:116-118 | Acquiring fails with LOCK_UNAVAILABLE when the id is held. Otherwise it adds the id. |
| Kv.KvClient.ReleaseLock | src/main/java/com/phonepe/magazine/impl/aerospike/AerospikeStorage.java:135-137 | Release removes the id from the held set. |
| Protocol.HandleException | src/main/java/com/phonepe/magazine/impl/aerospike/AerospikeStorage.java:587-619 | A MagazineException, or one wrapped in an ExecutionException, passes unchanged. LOCK_UNAVAILABLE becomes ACTION_DENIED_PARALLEL_ATTEMPT. A RetryException becomes RETRIES_EXHAUSTED. Any other ExecutionException becomes CONNECTION_ERROR. Anything else becomes INTERNAL_ERROR. |
| Protocol.SelectShard | src/main/java/com/phonepe/magazine/impl/aerospike/AerospikeStorage.java:496-501 | There is a shard iff the magazine has more than one shard, and it is then the random draw. |
| Protocol.MetaKeys | src/main/java/com/phonepe/magazine/impl/aerospike/AerospikeStorage.java:477-494 | Entry i is the pointer or counter key of shard i. With one shard it is the unsharded key. |
| Protocol.TypeAccepted | src/main/java/com/phonepe/magazine/impl/aerospike/AerospikeStorage.java:577-585 | Data whose class is the declared class is accepted. An instance of a proper subclass is refused, because `validateDataType` asks whether the data's class is assignable from the declared class. |
| Protocol.Append | src/main/java/com/phonepe/magazine/impl/aerospike/AerospikeStorage.java:121-129 | A successful append reports true. No lock changes. The marker is added iff a marker was asked for and the append succeeded. |
| Protocol.LoadLocked | src/main/java/com/phonepe/magazine/impl/aerospike/AerospikeStorage.java:114-134 | A successful locked load reports true. With dedupe on, its marker is then present, either found or written. No marker other than its own is added. With dedupe off, markers and locks are untouched. |
| Protocol.LoadOp | src/main/java/com/phonepe/magazine/impl/aerospike/AerospikeStorage.java:108-138 | load never reports false. Data of another class fails with DATA_TYPE_MISMATCH and no change. Otherwise the lock id is released afterwards, even when acquiring it failed. With dedupe on, success leaves the marker present. No other marker is added. |
| Protocol.ReloadLocked | src/main/java/com/phonepe/magazine/impl/aerospike/AerospikeStorage.java:146-159 | A successful locked reload reports true and writes no marker. With dedupe off, locks are untouched. |
| Protocol.ReloadOp | src/main/java/com/phonepe/magazine/impl/aerospike/AerospikeStorage.java:140-165 | reload never reports false and writes no marker. Data of another class fails with DATA_TYPE_MISMATCH and no change. Otherwise the lock id is released afterwards. |
| Protocol.FireShard | src/main/java/com/phonepe/magazine/impl/aerospike/AerospikeStorage.java:440-462 | A shard is picked only when the cache loaded and lists some label. The pick is a shard number iff the magazine has several shards. A Magazine exception raised here is NOTHING_TO_FIRE. A failed cache load is raised wrapped in an ExecutionException. |
| Protocol.FireFrom | src/main/java/com/phonepe/magazine/impl/aerospike/AerospikeStorage.java:286-304 | Firing touches no data record, marker or lock. A fired item belongs to the magazine and to the shard fired from, is of the magazine's class, and holds the data stored at its own data key. |
| Protocol.FireAttempt | src/main/java/com/phonepe/magazine/impl/aerospike/AerospikeStorage.java:277-305 | A pass touches no data record, marker or lock. A fired item belongs to the magazine, is of its class, and holds the data stored at its own data key. |
| Protocol.FireRounds | src/main/java/com/phonepe/magazine/impl/aerospike/AerospikeStorage.java:272-309 | Over any run of passes, fire touches no data record, marker or lock. A returned item belongs to the magazine, is of its class, and holds the data stored at its own data key when the fire began. |
| Protocol.GetMetaDataOp | src/main/java/com/phonepe/magazine/impl/aerospike/AerospikeStorage.java:172-208 | getMetaData succeeds iff neither batch read fails. |
| Protocol.MetaMap | src/main/java/com/phonepe/magazine/impl/aerospike/AerospikeStorage.java:187-204 | Every shard number has an entry under its label. A shard with neither record reads as all zeros. |
| Protocol.PeekKeys | src/main/java/com/phonepe/magazine/impl/aerospike/AerospikeStorage.java:536-560 | Every requested (shard, position) pair's data key is read. |
| Protocol.PeekItems | src/main/java/com/phonepe/magazine/impl/aerospike/AerospikeStorage.java:536-560 | Every peeked item belongs to the magazine, was requested at its shard and position, and carries the data found at its own data key. |
| Protocol.PeekOp | src/main/java/com/phonepe/magazine/impl/aerospike/AerospikeStorage.java:226-255 | A successful peek returns only items of the magazine and of its class, each holding the data stored at its own data key. |
| Protocol.DeleteOp | src/main/java/com/phonepe/magazine/impl/aerospike/AerospikeStorage.java:210-224 | Delete touches no metadata, marker or lock. It succeeds iff the delete call does not fail, and then the item's key holds no record. |
| QueueLemmas.OtherShardRecords | src/main/java/com/phonepe/magazine/impl/aerospike/AerospikeStorage.java:464-475 | Two shards of one magazine share no pointer, counter or data record. |
| QueueLemmas.AppendedShard | src/main/java/com/phonepe/magazine/impl/aerospike/AerospikeStorage.java:119-130 | After an append, the shard's queue has the value added at its end, and its load pointer and counter have moved one step. When asked, the marker added is the settings' marker key; for the engine that is the identifier directly followed by the data text. |
| QueueLemmas.AppendedOtherShards | src/main/java/com/phonepe/magazine/impl/aerospike/AerospikeStorage.java:119-130 | An append leaves the queue and metadata of every other shard unchanged. |
| QueueLemmas.AppendSucceeds | src/main/java/com/phonepe/magazine/impl/aerospike/AerospikeStorage.java:121-129 | Without failures, the append succeeds and leaves exactly the appended store. |
| QueueLemmas.AppendEffect | src/main/java/com/phonepe/magazine/impl/aerospike/AerospikeStorage.java:121-129 | Without failures, the append returns true, adds the value at the end of the shard's queue, moves its load pointer and counter, and changes no other shard. When asked, it writes the settings' marker key, which for the engine is the identifier directly followed by the data text. |
| QueueLemmas.MismatchedTypeChangesNothing | src/main/java/com/phonepe/magazine/impl/aerospike/AerospikeStorage.java:577-585 | Load and reload of data of another class fail with DATA_TYPE_MISMATCH, with no lock taken and no record touched. |
| QueueLemmas.DuplicateLoadChangesNothing | src/main/java/com/phonepe/magazine/impl/aerospike/AerospikeStorage.java:112-136 | With dedupe on and the marker key of (identifier, data) present, load returns true and leaves the store as it was, with the lock released. For the engine the marker key is the identifier directly followed by the data text, so a marker left by another magazine can be the one found. |
| QueueLemmas.ContendedLockIsRefused | src/main/java/com/phonepe/magazine/impl/aerospike/AerospikeStorage.java:112-136 | With dedupe on and the lock held elsewhere, load fails with ACTION_DENIED_PARALLEL_ATTEMPT. The finally block then releases that lock id. |
| QueueLemmas.LoadAppends | src/main/java/com/phonepe/magazine/impl/aerospike/AerospikeStorage.java:108-138 | A load with no marker present returns true. The selected shard's queue gains the value at its end. Its load pointer and load counter rise by 1, and its fire side is unchanged. The settings' marker key (for the engine, identifier followed by data text) is added iff dedupe is on. The lock is released. Every other shard of the same sharding mode is unchanged. |
| QueueLemmas.ReloadAppends | src/main/java/com/phonepe/magazine/impl/aerospike/AerospikeStorage.java:140-165 | A reload returns true. The selected shard's queue gains the value at its end. Its load pointer rises by 1 and its fire counter falls by 1, while its load counter is unchanged. No marker is written. Every other shard is unchanged. |
| QueueLemmas.LoadWithoutPointerRecord | src/main/java/com/phonepe/magazine/impl/aerospike/AerospikeStorage.java:323-347 | When the load-pointer add-and-get returns no record, load fails with MAGAZINE_UNPREPARED and writes no data. |
| QueueLemmas.LoadWithoutCounterRecord | src/main/java/com/phonepe/magazine/impl/aerospike/AerospikeStorage.java:367-389 | When the counter add-and-get returns no record, load fails with MAGAZINE_UNPREPARED, after the pointer moved and the data was written. No marker is written, with dedupe on or off. |
| FireLemmas.FirePointerMovedEffect | src/main/java/com/phonepe/magazine/impl/aerospike/AerospikeStorage.java:349-365 | Moving the fire pointer of a shard that is behind drops the head of its queue and changes no other shard. |
| FireLemmas.FireCountedEffect | src/main/java/com/phonepe/magazine/impl/aerospike/AerospikeStorage.java:391-413 | Counting a fire raises that shard's fire counter by 1 and leaves every other shard's metadata unchanged. |
| FireLemmas.FireCountedKeepsQueues | src/main/java/com/phonepe/magazine/impl/aerospike/AerospikeStorage.java:391-413 | Counting a fire changes no queue. |
| FireLemmas.FireFromBehind | src/main/java/com/phonepe/magazine/impl/aerospike/AerospikeStorage.java:286-304 | On a shard that is behind, a pass without failures reads the slot at the incremented fire pointer and leaves the pointer moved. The fire counter is raised only when a record was found. |
| FireLemmas.FireTakesHead | src/main/java/com/phonepe/magazine/impl/aerospike/AerospikeStorage.java:278-304 | A pass on a shard whose fire pointer is behind its load pointer takes the head of that queue. The item is fired if present and castable, skipped if absent, and raised as ClassCastException otherwise. The fire pointer moves by exactly 1. The fire counter rises iff the item was fired. No other shard and no data record changes. |
| FireLemmas.FireDrained | src/main/java/com/phonepe/magazine/impl/aerospike/AerospikeStorage.java:289-304 | A shard whose fire pointer is not behind yields nothing (retried) and changes nothing. |
| FireLemmas.FireWithoutPointerRecord | src/main/java/com/phonepe/magazine/impl/aerospike/AerospikeStorage.java:280-287 | A missing pointer record raises a NullPointerException in the pass. The fire fails with CONNECTION_ERROR, with the store unchanged. |
| FireLemmas.FireNothingToFire | src/main/java/com/phonepe/magazine/impl/aerospike/AerospikeStorage.java:450-462 | When the cache entry is available and lists no active shard, the fire ends at once with NOTHING_TO_FIRE and the store unchanged. |
| FireLemmas.FireCacheLoadFails | src/main/java/com/phonepe/magazine/impl/aerospike/AerospikeStorage.java:450-462 | When the active-shard cache must load its entry and the metadata read fails, the fire ends at once with CONNECTION_ERROR "Error firing data", with the store unchanged. |
| FireLemmas.SingleShardFiresUnsharded | src/main/java/com/phonepe/magazine/impl/aerospike/AerospikeStorage.java:444-447 | With one shard, fire uses the unsharded keys whatever label is picked. |
| FireLemmas.FireShardOfLabel | src/main/java/com/phonepe/magazine/impl/aerospike/AerospikeStorage.java:444-447 | With several shards, picking label `SHARD_i` fires from shard i. |
| FireLemmas.FireAttemptRaises | src/main/java/com/phonepe/magazine/impl/aerospike/AerospikeStorage.java:276-305 | A failing pass raises only a NOTHING_TO_FIRE or MAGAZINE_UNPREPARED exception, or a throwable that is no MagazineException. |
| FireLemmas.FireFailureCodes | src/main/java/com/phonepe/magazine/impl/aerospike/AerospikeStorage.java:274-309 | A failed fire carries NOTHING_TO_FIRE, MAGAZINE_UNPREPARED or CONNECTION_ERROR, never RETRIES_EXHAUSTED, because the fire retryer wraps every throwable. |
| FireLemmas.FireRoundsKeepOrder | src/main/java/com/phonepe/magazine/impl/aerospike/AerospikeStorage.java:286-293 | Any run of fire passes keeps every fire pointer at or behind its load pointer. |
| FireLemmas.FiredItemIsBehindFirePointer | src/main/java/com/phonepe/magazine/impl/aerospike/AerospikeStorage.java:291-301 | A fired item carries the magazine id, the shard and the new fire pointer. Its deletion key is that slot's data key, and its data is what the slot held. |
| ViewLemmas.GetMetaDataSucceeds | src/main/java/com/phonepe/magazine/impl/aerospike/AerospikeStorage.java:172-208 | Without failures, getMetaData returns the map built from its two batch reads. |
| ViewLemmas.ReportedMetaEntries | src/main/java/com/phonepe/magazine/impl/aerospike/AerospikeStorage.java:187-204 | The map has exactly the keys `SHARD_i` for i in [0, shards). Each holds that shard's counters and pointers, with zeros for a missing record. |
| ViewLemmas.GetMetaDataReportsShards | src/main/java/com/phonepe/magazine/impl/aerospike/AerospikeStorage.java:172-208 | getMetaData succeeds with exactly one entry per shard, keyed `SHARD_i`, holding that shard's metadata. Being a read, it changes nothing. |
| ViewLemmas.GetMetaDataFailure | src/main/java/com/phonepe/magazine/impl/aerospike/AerospikeStorage.java:205-207 | A failed batch read makes getMetaData fail with RETRIES_EXHAUSTED or CONNECTION_ERROR. |
| ViewLemmas.ActiveLabelShard | src/main/java/com/phonepe/magazine/impl/aerospike/AerospikeStorage.java:440-448 | When the cache entry is available, a label picked from fresh active metadata names a shard of the magazine, and that shard is active. |
| ViewLemmas.ActiveShardIsBehind | src/main/java/com/phonepe/magazine/impl/aerospike/AerospikeStorage.java:568-572 | An active shard has a pointer record whose fire pointer is behind its load pointer. |
| ViewLemmas.FreshCacheFires | src/main/java/com/phonepe/magazine/impl/aerospike/AerospikeStorage.java:440-462 | With a fresh cache and no failures, the pass fires from one of the magazine's shards and takes the head of its queue. |
| ViewLemmas.PeekReturnsStoredItems | src/main/java/com/phonepe/magazine/impl/aerospike/AerospikeStorage.java:226-255 | Without failures, peek succeeds iff every requested stored item is castable. It then returns exactly the requested (shard, position) items whose record exists, carrying the stored data. |
| ViewLemmas.PeekCastFailure | src/main/java/com/phonepe/magazine/impl/aerospike/AerospikeStorage.java:244-254 | A requested stored item of another class fails the peek with INTERNAL_ERROR "Error occurred". |
| ViewLemmas.DeleteRemovesItem | src/main/java/com/phonepe/magazine/impl/aerospike/AerospikeStorage.java:210-224 | Without failures, delete succeeds. Afterwards the item's slot is empty and every other slot, record, marker and lock is unchanged. |
| ViewLemmas.DeleteFailure | src/main/java/com/phonepe/magazine/impl/aerospike/AerospikeStorage.java:210-224 | A failed delete leaves the store unchanged and fails with RETRIES_EXHAUSTED or CONNECTION_ERROR. |
| ViewLemmas.DeleteFiredKeepsQueues | src/main/java/com/phonepe/magazine/impl/aerospike/AerospikeStorage.java:210-224 | Deleting an item at or before its shard's fire pointer leaves unchanged every queue of the item's sharding mode (sharded or unsharded keys), and all metadata. |
| ViewLemmas.FireThenDelete | src/main/java/com/phonepe/magazine/common/MagazineData.java:39-43 | Deleting an item right after it is fired removes its record and leaves every queue as the fire left it. |
| OrderLemmas.AppendKeepsOrder | src/main/java/com/phonepe/magazine/impl/aerospike/AerospikeStorage.java:121-129 | An append keeps fire pointers at or behind load pointers, wherever it stops. |
| OrderLemmas.LoadKeepsOrder | src/main/java/com/phonepe/magazine/impl/aerospike/AerospikeStorage.java:108-138 | A load keeps pointers ordered, whatever fails. |
| OrderLemmas.ReloadKeepsOrder | src/main/java/com/phonepe/magazine/impl/aerospike/AerospikeStorage.java:140-165 | A reload keeps pointers ordered, whatever fails. |
| OrderLemmas.ApplyKeepsOrder | src/main/java/com/phonepe/magazine/impl/aerospike/AerospikeStorage.java:108-309 | Every load, reload, fire or delete keeps pointers ordered. |
| OrderLemmas.RunKeepsOrder | src/main/java/com/phonepe/magazine/impl/aerospike/AerospikeStorage.java:108-309 | Any sequential run of calls, with any failures, keeps firePointer ≤ loadPointer on every shard. Every queue then holds exactly loadPointer − firePointer slots. |
| OrderLemmas.AddGrows | src/main/java/com/phonepe/magazine/impl/aerospike/AerospikeStorage.java:323-347 | An add-and-get that adds nothing negative to a pointer bin moves no pointer of any record back. |
| OrderLemmas.AppendGrows | src/main/java/com/phonepe/magazine/impl/aerospike/AerospikeStorage.java:121-129 | An append moves no pointer back, wherever it stops. |
| OrderLemmas.LoadGrows | src/main/java/com/phonepe/magazine/impl/aerospike/AerospikeStorage.java:108-138 | A load moves no pointer back, whatever fails. |
| OrderLemmas.ReloadGrows | src/main/java/com/phonepe/magazine/impl/aerospike/AerospikeStorage.java:140-165 | A reload moves no pointer back, whatever fails. |
| OrderLemmas.FireFromGrows | src/main/java/com/phonepe/magazine/impl/aerospike/AerospikeStorage.java:286-304 | Firing from a shard moves no pointer back. |
| OrderLemmas.FireAttemptGrows | src/main/java/com/phonepe/magazine/impl/aerospike/AerospikeStorage.java:277-305 | One fire pass moves no pointer back. |
| OrderLemmas.FireRoundsGrow | src/main/java/com/phonepe/magazine/impl/aerospike/AerospikeStorage.java:272-309 | Any run of fire passes moves no pointer back. |
| OrderLemmas.ApplyGrows | src/main/java/com/phonepe/magazine/impl/aerospike/AerospikeStorage.java:108-309 | Every load, reload, fire or delete moves no pointer back. |
| OrderLemmas.RunPointersNeverDecrease | src/main/java/com/phonepe/magazine/impl/aerospike/AerospikeStorage.java:108-309 | Over any sequential run of calls with any failures, every shard's load pointer and fire pointer end at least where they started. Positions are never handed out twice, and a slot is never fired twice. |
| DedupeLemmas.AsWrittenMarkerSuppressesLoad | src/main/java/com/phonepe/magazine/impl/aerospike/AerospikeStorage.java:114-134 | With the engine's marker key and dedupe on, after a load of (id1, data1), a load of any (id2, data2) whose concatenation is the same returns true and changes nothing. |
| DedupeLemmas.CollidingLoadIsDropped | src/main/java/com/phonepe/magazine/impl/aerospike/AerospikeStorage.java:527-534 | After "B1" is loaded into magazine "A", loading "1" into magazine "AB" returns true and leaves the store, and so "AB"'s queue, unchanged. |
| DedupeLemmas.LengthPrefixedLoadsIndependent | src/main/java/com/phonepe/magazine/impl/aerospike/AerospikeStorage.java:527-534 | With length-prefixed marker keys, a load of one (magazine, data) pair never keeps out a load of another pair: the second still returns true and appends its item. |
| Engine.AerospikeStorage.Build | src/main/java/com/phonepe/magazine/impl/aerospike/AerospikeStorage.java:77-106 | The storage is built iff the scope is LOCAL, with shards clamped, set names resolved by scope and the lock level resolved. GLOBAL gives NOT_IMPLEMENTED. |
| Engine.AerospikeStorage.AppendToShard | src/main/java/com/phonepe/magazine/impl/aerospike/AerospikeStorage.java:121-129 | Pointer increment, data write, counter update and optional marker write leave exactly `Append`, with the marker key the identifier directly followed by the data text. |
| Engine.AerospikeStorage.TryLoad | src/main/java/com/phonepe/magazine/impl/aerospike/AerospikeStorage.java:114-134 | The body of the try block leaves exactly `LoadLocked`. The dedupe check looks up the identifier directly followed by the data text. |
| Engine.AerospikeStorage.Load | src/main/java/com/phonepe/magazine/impl/aerospike/AerospikeStorage.java:108-138 | load leaves exactly `LoadOp` with marker keys built as written (identifier followed by data text). The QueueLemmas and DedupeLemmas rows state its effects, including a load suppressed by another magazine's marker. |
| Engine.AerospikeStorage.Reload | src/main/java/com/phonepe/magazine/impl/aerospike/AerospikeStorage.java:140-165 | reload leaves exactly `ReloadOp`. |
| Engine.AerospikeStorage.FireOnce | src/main/java/com/phonepe/magazine/impl/aerospike/AerospikeStorage.java:277-305 | One pass of the fire callable leaves exactly `FireAttempt`. |
| Engine.AerospikeStorage.Fire | src/main/java/com/phonepe/magazine/impl/aerospike/AerospikeStorage.java:167-170 | The retry loop over the given passes leaves exactly `FireRounds`, whose properties the FireLemmas rows state. |
| Engine.AerospikeStorage.GetMetaData | src/main/java/com/phonepe/magazine/impl/aerospike/AerospikeStorage.java:172-208 | Changes nothing and returns `GetMetaDataOp`. |
| Engine.AerospikeStorage.Peek | src/main/java/com/phonepe/magazine/impl/aerospike/AerospikeStorage.java:226-255 | Changes nothing and returns `PeekOp`. |
| Engine.AerospikeStorage.Delete | src/main/java/com/phonepe/magazine/impl/aerospike/AerospikeStorage.java:210-224 | Leaves exactly `DeleteOp`. |
| Magazines.ShardsCheckAllowsOnlyGrowth | src/main/java/com/phonepe/magazine/Magazine.java:149-163 | With stored count s and configured count c ≥ 1, the shard-count validation accepts iff (c = 1 and s ≤ 1) or 1 < s ≤ c, which is s ≤ c and not s ≤ 1 < c. A refusal is INVALID_SHARDS. |
| Magazines.FirstValidationRecordsShards | src/main/java/com/phonepe/magazine/Magazine.java:130-147 | Without a stored SHARDS record, validation writes the configured count and succeeds. |
| Magazines.ExistingRecordIsKept | src/main/java/com/phonepe/magazine/Magazine.java:130-163 | An existing SHARDS record is never rewritten, even when shards grow. |
| Magazines.ValidationIsRepeatable | src/main/java/com/phonepe/magazine/Magazine.java:119-163 | After a successful validation, validating again with the same count succeeds and changes nothing. |
| Magazines.ShardCountCannotShrink | src/main/java/com/phonepe/magazine/Magazine.java:150-161 | After a magazine is first created, a later storage with fewer shards, or a sharded storage for an unsharded magazine, is refused with INVALID_SHARDS. |
| Magazines.ValidationKeepsOrder | src/main/java/com/phonepe/magazine/Magazine.java:130-147 | Validation keeps pointers ordered. |
| Magazines.ShardsCheck | src/main/java/com/phonepe/magazine/Magazine.java:149-163 | A refusal is always INVALID_SHARDS, and an accepted stored count never exceeds the configured one. |
| Magazines.ValidateStorageOp | src/main/java/com/phonepe/magazine/Magazine.java:110-171 | HBase fails with UnsupportedOperationException and no change. Validation touches no data, marker or lock. The only store change it ever makes is writing the configured count where no SHARDS record existed, and then it succeeds. |
| Magazines.Magazine.ValidateStorage | src/main/java/com/phonepe/magazine/Magazine.java:110-171 | HBase throws UnsupportedOperationException. Aerospike reads, writes or checks the SHARDS record, leaving exactly `ValidateStorageOp`. |
| Magazines.Magazine.Create | src/main/java/com/phonepe/magazine/Magazine.java:44-50 | A magazine is created iff validation succeeds, with the given storage and identifier. Otherwise the thrown error is returned. |
| Magazines.Magazine.Load | src/main/java/com/phonepe/magazine/Magazine.java:58-60 | Forwards to the storage with the magazine's own identifier. The storage checks and writes the shared marker key built from that identifier and the data text. |
| Magazines.Magazine.Reload | src/main/java/com/phonepe/magazine/Magazine.java:69-71 | Forwards to the storage with the magazine's own identifier. |
| Magazines.Magazine.Fire | src/main/java/com/phonepe/magazine/Magazine.java:78-80 | Forwards to the storage with the magazine's own identifier. |
| Magazines.Magazine.Delete | src/main/java/com/phonepe/magazine/Magazine.java:87-89 | Forwards to the storage. |
| Magazines.Magazine.GetMetaData | src/main/java/com/phonepe/magazine/Magazine.java:96-98 | Forwards to the storage with the magazine's own identifier. |
| Magazines.Magazine.Peek | src/main/java/com/phonepe/magazine/Magazine.java:106-108 | Forwards to the storage with the magazine's own identifier. |
| Manager.LastWithId | src/main/java/com/phonepe/magazine/MagazineManager.java:43-45 | The last listed magazine with an identifier. It is absent iff no listed magazine has that identifier. |
| Manager.RefreshedSnoc | src/main/java/com/phonepe/magazine/MagazineManager.java:43-45 | Refreshing with one more magazine is one more `put`. |
| Manager.RefreshedEntries | src/main/java/com/phonepe/magazine/MagazineManager.java:43-45 | After refresh, a listed identifier maps to the last magazine with it. Any other identifier keeps its entry, or stays absent. |
| Manager.RefreshedDomain | src/main/java/com/phonepe/magazine/MagazineManager.java:43-45 | The identifiers after refresh are the earlier ones plus the listed ones. |
| Manager.Lookup | src/main/java/com/phonepe/magazine/MagazineManager.java:55-64 | Succeeds iff the identifier is registered, and then returns the registered magazine. Otherwise it fails with MAGAZINE_NOT_FOUND "Magazine not found for identifier <id>". |
| Manager.RefreshedFindsLast | src/main/java/com/phonepe/magazine/MagazineManager.java:43-64 | After refresh, looking up a listed identifier returns the last listed magazine with it. |
| Manager.MagazineManager.constructor | src/main/java/com/phonepe/magazine/MagazineManager.java:31-36 | The map is empty at construction. |
| Manager.MagazineManager.Refresh | src/main/java/com/phonepe/magazine/MagazineManager.java:43-45 | The `forEach` of `put`s leaves exactly `Refreshed` of the old map. |
| Manager.MagazineManager.GetMagazine | src/main/java/com/phonepe/magazine/MagazineManager.java:55-64 | Returns `Lookup` of the map, and does not change the map. |

## Notes on the code

Behaviours of the code that are easy to misread. The model follows the code in each.
- **The data write is a plain overwrite.** `loadData` sets only an expiration and
  `sendKey` (AerospikeStorage.java:257-270). It is not a create-only write.
- **There is no `UNSUPPORTED_CLASS_FOR_DEDUPE`.** The error enum
  (ErrorCode.java:18-29) has no such code, and `DEDUPABLE_CLASSES` is never consulted.
- **`validateDataType` rejects subclass instances.** It tests
  `data.getClass().isAssignableFrom(clazz)`, so an instance of a proper subclass of the
  declared class is refused. `TypeAccepted` keeps that direction.
- **One shard means unsharded keys.** With one shard, fire uses the unsharded keys
  whatever label the cache lists. With several shards it parses the label.
- **Inside fire, errors are wrapped.** The fire retryer wraps every throwable of its
  callable in an `ExecutionException`. An exhausted inner retryer is therefore reported
  as CONNECTION_ERROR. A missing pointer record (a null `Record`) is reported the same
  way.
- **A missing data record is skipped.** The fire pointer has already moved, so that
  slot is never fired.
- **Other details the model keeps:**
  - `getMetaData` reports a missing pointer or counter record as zeros.
  - `peek` does not check the requested shard.
  - A cast failure in `peek` surfaces as INTERNAL_ERROR "Error occurred".
  - The dedupe markers are shared by every magazine of a client, and the engine's marker
    key is the identifier followed by the data text (see Findings).
- **Record keys can collide when identifiers contain `_`.** Magazine `a` shard 0 and
  unsharded magazine `a_SHARD_0` share the key `a_SHARD_0_POINTERS`. Key injectivity is
  proved only for identifiers without `_` (`Keys.CreateKeyInjective`).

## Findings

| source | as written | input that shows it | evidently intended | confidence | as-written member | corrected member |
|---|---|---|---|---|---|---|
| src/main/java/com/phonepe/magazine/impl/aerospike/AerospikeStorage.java:527-534 | The dedupe marker key is the magazine identifier directly followed by the data text, with no delimiter. Markers live in one set shared by all magazines of a client. | Load "B1" into magazine "A", then load "1" into magazine "AB" with dedupe on. Both give marker key "AB1", so the second load returns true without storing anything. | Each (magazine, data) pair has its own marker. The corrected key prefixes the identifier with its length (`LengthPrefixed` scheme, `Keys.DeDupeKeyInjective`). The engine model keeps the key as written. | not executed | DedupeLemmas.CollidingLoadIsDropped | DedupeLemmas.LengthPrefixedLoadsIndependent |

## Left out

- The Aerospike client, the Caffeine cache and the distributed lock manager are foreign
  libraries. The store is a value with maps and sets. The lock manager is a set of held
  ids. The cache is the active-label list handed to each fire pass, which may be stale.
  A pass may instead meet a failure of the cache's own load (step `ActiveShardsLoad`).
- Randomness: `selectShard`'s `SecureRandom` draw and the pick among active shards are
  parameters (`draw`, `Round.pick`).
- Time: record, metadata and `SHARDS` TTLs, the `modified_at` bins, the retry delays and
  the cache's refresh period and size bound are not modelled.
- The bounded retryer is one outcome per call: success, retries exhausted (RetryException)
  or execution failure (ExecutionException). It is not a count of attempts.
- Engine.AerospikeStorage.Fire: the fire retryer retries on a null result without end.
  The model runs a given finite sequence of passes and returns `StillRetrying` when they
  run out, because an unbounded loop cannot be stated with a termination proof.
- Concurrency: fire reads the pointers and then increments them in separate calls, so the
  pointer-order invariant is stated for sequential runs only. Cross-process lock
  semantics are not modelled.
- Namespaces, set names inside keys, `sendKey`, and write and read policies are not
  modelled. Keys are the plain key strings.
- The HBase storage, whose every method throws, is only the `UnsupportedOperationException`
  of `validateStorage`. Visitor dispatch is a `match`.
- `AerospikeStorageConfig` validation annotations and defaults are not modelled. The
  `ErrorMessage` format strings are kept only as the fixed texts the model needs.
- Java's `String.format("%d")` of a `long` is `IntToString`. Shard numbers parsed back
  from labels are 32-bit values (`Int32`), as `Integer.parseInt` requires.
- Protocol.LoadOp: a null data object is not modelled. In the code, `validateDataType` then
  throws a raw NullPointerException outside the try block (AerospikeStorage.java:111,
  578). A `Payload` always has a class and a text.
- Protocol.ReloadOp: likewise, a null data object is not modelled (AerospikeStorage.java:143).
- The generic type parameter `T` is a `Payload` with a class and a text (`toString`).
  Casting is assignability between classes.
