/**
  A magazine: a storage bound to one magazine identifier. Creating one checks the
  shard count against the SHARDS record of the magazine, writing that record the
  first time; every operation then forwards to the storage with the identifier.
 */
module Magazines {
  import opened Wrappers
  import opened Errors
  import opened Keys
  import opened Records
  import opened BaseStorage
  import opened Kv
  import opened Protocol
  import opened Engine

  const DecreaseShards: MagazineException :=
    MagazineException(InvalidShards, "Cannot decrease shards of a magazine.", None)

  const UnshardedToSharded: MagazineException :=
    MagazineException(InvalidShards, "Cannot convert unsharded to sharded magazine.", None)

  /** What the HBase branch of the storage-type visitor throws. */
  const Unsupported: Throwable := Other("UnsupportedOperationException", None)

  /** The validation of a stored shard count against the storage's: a decrease, then a move from unsharded to sharded, is refused. */
  function ShardsCheck(stored: int, shards: int): (refused: Option<MagazineException>)
    ensures refused.Some? ==> refused.value.code == InvalidShards
    ensures refused.None? ==> stored <= shards
  {
    if stored > shards then Some(DecreaseShards)
    else if stored <= 1 && shards > 1 then Some(UnshardedToSharded)
    else None
  }

  /**
    `validateStorage`: HBase is unsupported; for Aerospike, read the magazine's SHARDS
    record, write it with the storage's shard count when absent, check the stored count
    otherwise. Exceptions leave the constructor as they are thrown.
   */
  function ValidateStorageOp(storageType: StorageType, shards: int, s: Store, id: string, fault: Fault): (r: (Store, Result<(), Throwable>))
    ensures r.0.data == s.data && r.0.markers == s.markers && r.0.locks == s.locks
    ensures storageType == HBase ==> r == (s, Err(Unsupported))
    ensures r.0 != s ==> ShardsKey(id) !in s.meta && r.1.Ok? && r.0.meta == s.meta[ShardsKey(id) := map[ShardsBin := shards]]
  {
    if storageType == HBase then (s, Err(Unsupported))
    else
      match ReadMeta(s, ShardsKey(id), CallAt(fault, ShardsRead))
      case Threw(t) => (s, Err(t))
      case Done(None) =>
        assert MetaRecord(s, ShardsKey(id)) + map[ShardsBin := shards] == map[ShardsBin := shards];
        var (s1, written) := WriteMeta(s, ShardsKey(id), map[ShardsBin := shards], CallAt(fault, ShardsWrite));
        if written.Threw? then (s1, Err(written.ex)) else (s1, Ok(()))
      case Done(Some(rec)) =>
        match ShardsCheck(BinValue(rec, ShardsBin), shards)
        case Some(ex) => (s, Err(Magazine(ex)))
        case None => (s, Ok(()))
  }

  /**
    A stored shard count is accepted exactly when the magazine keeps one shard (and the
    record says at most one), or is sharded and does not shrink.
   */
  lemma ShardsCheckAllowsOnlyGrowth(stored: int, shards: int)
    requires shards >= 1
    ensures ShardsCheck(stored, shards).None? <==> (shards == 1 && stored <= 1) || (1 < stored <= shards)
    ensures ShardsCheck(stored, shards).Some? ==> ShardsCheck(stored, shards).value.code == InvalidShards
  {
  }

  /** The first magazine of an identifier writes the SHARDS record with its shard count and succeeds. */
  lemma FirstValidationRecordsShards(shards: int, s: Store, id: string)
    requires ShardsKey(id) !in s.meta
    ensures ValidateStorageOp(Aerospike, shards, s, id, NoFault) ==
              (s.(meta := s.meta[ShardsKey(id) := map[ShardsBin := shards]]), Ok(()))
  {
    assert MetaRecord(s, ShardsKey(id)) + map[ShardsBin := shards] == map[ShardsBin := shards];
  }

  /** An existing SHARDS record is never rewritten: validation then only reads. */
  lemma ExistingRecordIsKept(storageType: StorageType, shards: int, s: Store, id: string, fault: Fault)
    requires ShardsKey(id) in s.meta
    ensures ValidateStorageOp(storageType, shards, s, id, fault).0 == s
  {
  }

  /** Validating again with the same shard count succeeds and changes nothing. */
  lemma ValidationIsRepeatable(shards: ShardCount, s: Store, id: string)
    requires ValidateStorageOp(Aerospike, shards, s, id, NoFault).1.Ok?
    ensures var t := ValidateStorageOp(Aerospike, shards, s, id, NoFault).0;
            ValidateStorageOp(Aerospike, shards, t, id, NoFault) == (t, Ok(()))
  {
    var rec := MetaRecord(s, ShardsKey(id));
    if ShardsKey(id) in s.meta {
      ShardsCheckAllowsOnlyGrowth(BinValue(rec, ShardsBin), shards);
    }
  }

  /**
    A magazine created with one shard count refuses a later storage with fewer shards,
    and an unsharded one refuses a sharded storage.
   */
  lemma ShardCountCannotShrink(first: ShardCount, later: ShardCount, s: Store, id: string)
    requires ShardsKey(id) !in s.meta
    requires later < first || (first == 1 && later > 1)
    ensures var t := ValidateStorageOp(Aerospike, first, s, id, NoFault).0;
            var r := ValidateStorageOp(Aerospike, later, t, id, NoFault).1;
            r.Err? && r.error.Magazine? && r.error.ex.code == InvalidShards
  {
  }

  /** Writing the SHARDS record leaves every pointer bin as it was. */
  lemma ValidationKeepsOrder(storageType: StorageType, shards: int, s: Store, id: string, fault: Fault)
    requires PointersOrdered(s)
    ensures PointersOrdered(ValidateStorageOp(storageType, shards, s, id, fault).0)
  {
    assert ShardsBin != FirePointerBin && ShardsBin != LoadPointerBin by {
      assert ShardsBin[1] != FirePointerBin[1];
      assert ShardsBin[1] != LoadPointerBin[1];
    }
  }

  class Magazine {
    const storage: AerospikeStorage
    const magazineIdentifier: string

    constructor(storage: AerospikeStorage, magazineIdentifier: string)
      ensures this.storage == storage && this.magazineIdentifier == magazineIdentifier
    {
      this.storage := storage;
      this.magazineIdentifier := magazineIdentifier;
    }

    /** The constructor of a magazine with its storage validation: either the magazine, or what validation threw. */
    static method Create(storage: AerospikeStorage, magazineIdentifier: string, fault: Fault)
      returns (r: Result<Magazine, Throwable>)
      modifies storage.client
      ensures var (t, v) := ValidateStorageOp(storage.base.storageType, storage.base.shards,
                                              old(storage.client.State()), magazineIdentifier, fault);
              && storage.client.State() == t
              && (r.Ok? <==> v.Ok?)
              && (r.Err? ==> r.error == v.error)
              && (r.Ok? ==> fresh(r.value) && r.value.storage == storage && r.value.magazineIdentifier == magazineIdentifier)
    {
      var v := ValidateStorage(storage, magazineIdentifier, fault);
      if v.Err? {
        return Err(v.error);
      }
      var m := new Magazine(storage, magazineIdentifier);
      return Ok(m);
    }

    /** `validateStorage` against the store, by storage type. */
    static method ValidateStorage(storage: AerospikeStorage, magazineIdentifier: string, fault: Fault)
      returns (r: Result<(), Throwable>)
      modifies storage.client
      ensures (storage.client.State(), r) ==
                ValidateStorageOp(storage.base.storageType, storage.base.shards, old(storage.client.State()), magazineIdentifier, fault)
    {
      if storage.base.storageType == HBase {
        return Err(Unsupported);
      }
      var client := storage.client;
      var read := client.GetMeta(ShardsKey(magazineIdentifier), CallAt(fault, ShardsRead));
      if read.Threw? {
        return Err(read.ex);
      }
      if read.value.None? {
        var written := client.PutMeta(ShardsKey(magazineIdentifier), map[ShardsBin := storage.base.shards], CallAt(fault, ShardsWrite));
        if written.Threw? {
          return Err(written.ex);
        }
        return Ok(());
      }
      var check := ShardsCheck(BinValue(read.value.value, ShardsBin), storage.base.shards);
      if check.Some? {
        return Err(Magazine(check.value));
      }
      return Ok(());
    }

    method Load(value: Payload, draw: int, fault: Fault) returns (r: Result<bool, MagazineException>)
      requires ValidDraw(storage.EngineSettings(), draw)
      modifies storage.client
      ensures (storage.client.State(), r) ==
                LoadOp(storage.EngineSettings(), old(storage.client.State()), magazineIdentifier, value, draw, fault)
    {
      r := storage.Load(magazineIdentifier, value, draw, fault);
    }

    method Reload(value: Payload, draw: int, fault: Fault) returns (r: Result<bool, MagazineException>)
      requires ValidDraw(storage.EngineSettings(), draw)
      modifies storage.client
      ensures (storage.client.State(), r) ==
                ReloadOp(storage.EngineSettings(), old(storage.client.State()), magazineIdentifier, value, draw, fault)
    {
      r := storage.Reload(magazineIdentifier, value, draw, fault);
    }

    method Fire(rounds: seq<Round>) returns (r: FireOutcome)
      requires ValidRounds(storage.EngineSettings(), rounds)
      modifies storage.client
      ensures (storage.client.State(), r) ==
                FireRounds(storage.EngineSettings(), old(storage.client.State()), magazineIdentifier, rounds)
    {
      r := storage.Fire(magazineIdentifier, rounds);
    }

    method Delete(m: MagazineData, fault: Fault) returns (r: Result<(), MagazineException>)
      modifies storage.client
      ensures (storage.client.State(), r) == DeleteOp(old(storage.client.State()), m, fault)
    {
      r := storage.Delete(m, fault);
    }

    method GetMetaData(fault: Fault) returns (r: Result<map<string, MetaData>, MagazineException>)
      ensures r == GetMetaDataOp(storage.EngineSettings(), storage.client.State(), magazineIdentifier, fault)
    {
      r := storage.GetMetaData(magazineIdentifier, fault);
    }

    method Peek(request: map<Option<int>, set<int>>, fault: Fault) returns (r: Result<set<MagazineData>, MagazineException>)
      ensures r == PeekOp(storage.EngineSettings(), storage.client.State(), magazineIdentifier, request, fault)
    {
      r := storage.Peek(magazineIdentifier, request, fault);
    }
  }
}
