/**
  The Aerospike storage engine as an object: its configuration is fixed at
  construction, and every operation works through the store client, whose records
  change in place. Each method is proved to do exactly what the matching function of
  `Protocol` describes, so the lemmas about those functions hold of the methods.
 */
module Engine {
  import opened Wrappers
  import opened Text
  import opened Errors
  import opened Keys
  import opened Records
  import opened Scope
  import opened BaseStorage
  import opened Kv
  import opened Protocol

  class AerospikeStorage {
    const base: BaseMagazineStorage
    const client: KvClient
    const clazz: JClass
    const namespace: string
    const dataSetName: string
    const metaSetName: string
    const lockLevel: LockLevel

    /** The parts of the configuration the operations depend on. */
    function EngineSettings(): Settings
    {
      Settings(base.shards, base.enableDeDupe, clazz, AsWritten)
    }

    constructor(base: BaseMagazineStorage, client: KvClient, clazz: JClass, namespace: string,
                dataSetName: string, metaSetName: string, lockLevel: LockLevel)
      ensures this.base == base && this.client == client && this.clazz == clazz
      ensures this.namespace == namespace && this.dataSetName == dataSetName
      ensures this.metaSetName == metaSetName && this.lockLevel == lockLevel
    {
      this.base := base;
      this.client := client;
      this.clazz := clazz;
      this.namespace := namespace;
      this.dataSetName := dataSetName;
      this.metaSetName := metaSetName;
      this.lockLevel := lockLevel;
    }

    /**
      The builder: the base configuration (shards clamped, scope checked), the data and
      meta set names resolved for the scope, and the lock level of the scope. A GLOBAL
      scope fails construction with NOT_IMPLEMENTED.
     */
    static method Build(client: KvClient, config: AerospikeStorageConfig, enableDeDupe: bool, farmId: string,
                        clazz: JClass, clientId: string, scope: MagazineScope)
      returns (r: Result<AerospikeStorage, MagazineException>)
      ensures r.Ok? <==> scope == Local
      ensures r.Err? ==> r.error == GlobalScopeNotImplemented
      ensures r.Ok? ==>
                && fresh(r.value)
                && r.value.client == client && r.value.clazz == clazz
                && r.value.base == NewBaseMagazineStorage(Aerospike, config.recordTtl, config.metaDataTtl, farmId,
                                                          enableDeDupe, config.shards, clientId, scope).value
                && r.value.namespace == config.namespace
                && r.value.dataSetName == ResolveSetName(config.dataSetName, farmId, scope)
                && r.value.metaSetName == ResolveSetName(config.metaSetName, farmId, scope)
                && r.value.lockLevel == ResolveLockLevel(scope)
    {
      var b := NewBaseMagazineStorage(Aerospike, config.recordTtl, config.metaDataTtl, farmId,
                                      enableDeDupe, config.shards, clientId, scope);
      if b.Err? {
        return Err(b.error);
      }
      var storage := new AerospikeStorage(b.value, client, clazz, config.namespace,
                                          ResolveSetName(config.dataSetName, farmId, scope),
                                          ResolveSetName(config.metaSetName, farmId, scope),
                                          ResolveLockLevel(scope));
      return Ok(storage);
    }

    /** Raise the load pointer, write the data after it, adjust a counter, and write the dedupe marker if asked. */
    method AppendToShard(id: string, value: Payload, shard: Option<int>, fault: Fault, lockId: string,
                         counterBin: string, counterDelta: int, marker: bool)
      returns (r: Result<bool, MagazineException>)
      modifies client
      ensures (client.State(), r) ==
                Append(EngineSettings(), old(client.State()), id, value, shard, fault, lockId, counterBin, counterDelta, marker)
    {
      var loaded := client.Operate(PointerKey(id, shard), LoadPointerBin, 1, CallAt(fault, PointerUpdate));
      if loaded.Threw? {
        return Err(HandleException(loaded.ex, ErrorLoadingData, id, Some(lockId)));
      }
      if loaded.value.None? {
        return Err(HandleException(Magazine(Unprepared(ErrorReadingPointers, id)), ErrorLoadingData, id, Some(lockId)));
      }
      var position := loaded.value.value;
      var written := client.Put(DataKey(id, shard, position), value, CallAt(fault, DataWrite));
      if written.Threw? {
        return Err(HandleException(written.ex, ErrorLoadingData, id, Some(lockId)));
      }
      var counted := client.Operate(CounterKey(id, shard), counterBin, counterDelta, CallAt(fault, CounterUpdate));
      if counted.Threw? {
        return Err(HandleException(counted.ex, ErrorLoadingData, id, Some(lockId)));
      }
      if counted.value.None? {
        return Err(HandleException(Magazine(Unprepared(ErrorReadingCounters, id)), ErrorLoadingData, id, Some(lockId)));
      }
      if marker {
        var marked := client.PutMarker(DeDupeKeyAsWritten(id, value.text), CallAt(fault, MarkerWrite));
        if marked.Threw? {
          return Err(HandleException(marked.ex, ErrorLoadingData, id, Some(lockId)));
        }
      }
      return Ok(true);
    }

    /** The try block of `load`: take the lock when deduplicating, skip a duplicate, append otherwise. */
    method TryLoad(id: string, value: Payload, shard: Option<int>, fault: Fault, lockId: string)
      returns (r: Result<bool, MagazineException>)
      modifies client
      ensures (client.State(), r) == LoadLocked(EngineSettings(), old(client.State()), id, value, shard, fault, lockId)
    {
      if base.enableDeDupe {
        var acquired := client.TryAcquireLock(lockId);
        if acquired.Threw? {
          return Err(HandleException(acquired.ex, ErrorLoadingData, id, Some(lockId)));
        }
        var present := client.Exists(DeDupeKeyAsWritten(id, value.text), CallAt(fault, DeDupeCheck));
        if present.Threw? {
          return Err(HandleException(present.ex, ErrorLoadingData, id, Some(lockId)));
        }
        if present.value {
          return Ok(true);
        }
        r := AppendToShard(id, value, shard, fault, lockId, LoadCounterBin, 1, true);
      } else {
        r := AppendToShard(id, value, shard, fault, lockId, LoadCounterBin, 1, false);
      }
    }

    /** `load`: type check, the locked part, and the lock release of the finally block. */
    method Load(id: string, value: Payload, draw: int, fault: Fault) returns (r: Result<bool, MagazineException>)
      requires ValidDraw(EngineSettings(), draw)
      modifies client
      ensures (client.State(), r) == LoadOp(EngineSettings(), old(client.State()), id, value, draw, fault)
    {
      if !TypeAccepted(EngineSettings(), value) {
        return Err(TypeMismatch);
      }
      var lockId := LockId(id, value.text);
      r := TryLoad(id, value, SelectShard(EngineSettings(), draw), fault, lockId);
      client.ReleaseLock(lockId);
    }

    /** `reload`: like `load` without the dedupe check and marker, lowering the fire counter instead. */
    method Reload(id: string, value: Payload, draw: int, fault: Fault) returns (r: Result<bool, MagazineException>)
      requires ValidDraw(EngineSettings(), draw)
      modifies client
      ensures (client.State(), r) == ReloadOp(EngineSettings(), old(client.State()), id, value, draw, fault)
    {
      if !TypeAccepted(EngineSettings(), value) {
        return Err(TypeMismatch);
      }
      var lockId := LockId(id, value.text);
      var shard := SelectShard(EngineSettings(), draw);
      var acquired: Try<()> := Done(());
      if base.enableDeDupe {
        acquired := client.TryAcquireLock(lockId);
      }
      if acquired.Threw? {
        r := Err(HandleException(acquired.ex, ErrorLoadingData, id, Some(lockId)));
      } else {
        r := AppendToShard(id, value, shard, fault, lockId, FireCounterBin, -1, false);
      }
      client.ReleaseLock(lockId);
    }

    /** One pass of the fire callable: pick a shard, read its pointers, and fire from it when it is behind. */
    method FireOnce(id: string, round: Round) returns (shot: Shot)
      requires ValidRound(EngineSettings(), round)
      modifies client
      ensures (client.State(), shot) == FireAttempt(EngineSettings(), old(client.State()), id, round)
    {
      var picked := FireShard(EngineSettings(), id, round);
      if picked.Threw? {
        return Raised(picked.ex);
      }
      var shard := picked.value;
      var pointers := client.GetMeta(PointerKey(id, shard), CallAt(round.fault, PointerRead));
      if pointers.Threw? {
        return Raised(pointers.ex);
      }
      if pointers.value.None? {
        return Raised(NullPointer);
      }
      var rec := pointers.value.value;
      if !(BinValue(rec, FirePointerBin) < BinValue(rec, LoadPointerBin)) {
        return NotYet;
      }
      var advanced := client.Operate(PointerKey(id, shard), FirePointerBin, 1, CallAt(round.fault, PointerUpdate));
      if advanced.Threw? {
        return Raised(advanced.ex);
      }
      if advanced.value.None? {
        return Raised(NullPointer);
      }
      var position := advanced.value.value;
      var data := client.Get(DataKey(id, shard, position), CallAt(round.fault, DataRead));
      if data.Threw? {
        return Raised(data.ex);
      }
      if data.value.None? {
        return NotYet;
      }
      var value := data.value.value;
      if !CastSucceeds(clazz, value) {
        return Raised(ClassCast);
      }
      var counted := client.Operate(CounterKey(id, shard), FireCounterBin, 1, CallAt(round.fault, CounterUpdate));
      if counted.Threw? {
        return Raised(counted.ex);
      }
      if counted.value.None? {
        return Raised(Magazine(Unprepared(ErrorReadingCounters, id)));
      }
      return Fired(MagazineData(value, position, shard, id));
    }

    /**
      `fire`: repeat the callable while it finds nothing, over the passes given; an
      item or an exception ends the loop, and running out of passes leaves it retrying.
     */
    method Fire(id: string, rounds: seq<Round>) returns (r: FireOutcome)
      requires ValidRounds(EngineSettings(), rounds)
      modifies client
      ensures (client.State(), r) == FireRounds(EngineSettings(), old(client.State()), id, rounds)
    {
      var e := EngineSettings();
      var i := 0;
      while i < |rounds|
        invariant 0 <= i <= |rounds|
        invariant ValidRounds(e, rounds[i..])
        invariant FireRounds(e, old(client.State()), id, rounds) == FireRounds(e, client.State(), id, rounds[i..])
        decreases |rounds| - i
      {
        assert rounds[i..][0] == rounds[i] && rounds[i..][1..] == rounds[i + 1..];
        var shot := FireOnce(id, rounds[i]);
        match shot {
          case Fired(m) => return FiredData(m);
          case Raised(t) => return FireFailed(HandleException(Execution(t), ErrorFiringData, id, None));
          case NotYet =>
        }
        i := i + 1;
      }
      return StillRetrying;
    }

    /** `getMetaData`: batch-read every shard's counters, then its pointers, and label the entries. */
    method GetMetaData(id: string, fault: Fault) returns (r: Result<map<string, MetaData>, MagazineException>)
      ensures r == GetMetaDataOp(EngineSettings(), client.State(), id, fault)
    {
      var e := EngineSettings();
      var counters := client.GetMetaBatch(MetaKeys(e, id, Counters), CallAt(fault, CounterBatchRead));
      if counters.Threw? {
        return Err(HandleException(counters.ex, ErrorGettingMetaData, id, None));
      }
      var pointers := client.GetMetaBatch(MetaKeys(e, id, Pointers), CallAt(fault, PointerBatchRead));
      if pointers.Threw? {
        return Err(HandleException(pointers.ex, ErrorGettingMetaData, id, None));
      }
      return Ok(MetaMap(e, counters.value, pointers.value));
    }

    /** `peek`: batch-read the requested positions and cast every record found. */
    method Peek(id: string, request: map<Option<int>, set<int>>, fault: Fault)
      returns (r: Result<set<MagazineData>, MagazineException>)
      ensures r == PeekOp(EngineSettings(), client.State(), id, request, fault)
    {
      var found := client.GetBatch(PeekKeys(id, request), CallAt(fault, DataBatchRead));
      if found.Threw? {
        return Err(HandleException(found.ex, ErrorPeekingData, id, None));
      }
      var items := PeekItems(id, request, found.value);
      if exists m :: m in items && !CastSucceeds(clazz, m.data) {
        return Err(HandleException(ClassCast, ErrorPeekingData, id, None));
      }
      return Ok(items);
    }

    /** `delete`: remove the record at the item's key. */
    method Delete(m: MagazineData, fault: Fault) returns (r: Result<(), MagazineException>)
      modifies client
      ensures (client.State(), r) == DeleteOp(old(client.State()), m, fault)
    {
      var removed := client.Delete(CreateAerospikeKey(m), CallAt(fault, DataDelete));
      if removed.Threw? {
        return Err(HandleException(removed.ex, ErrorDeletingData, m.magazineIdentifier, None));
      }
      return Ok(());
    }
  }
}
