/**
  What `getMetaData`, `peek` and `delete` promise: the metadata map reports every
  shard's records, its active labels lead fire to a shard with something queued, a
  peek returns exactly the requested items the store holds, and a delete removes
  exactly the item's record.
 */
module ViewLemmas {
  import opened Wrappers
  import opened Text
  import opened Errors
  import opened Keys
  import opened Records
  import opened Kv
  import opened Protocol
  import opened QueueLemmas
  import opened FireLemmas

  /** The metadata of a shard as `getMetaData` reports it: the counters and pointers the store holds for it. */
  lemma MetaDataOfShard(e: Settings, s: Store, id: string, i: int)
    requires 0 <= i < e.shards
    ensures var c := ReadMetaBatch(s, MetaKeys(e, id, Counters), Proceed);
            var p := ReadMetaBatch(s, MetaKeys(e, id, Pointers), Proceed);
            c.Done? && p.Done? && MetaDataOf(c.value[i], p.value[i]) == ShardMeta(s, id, ShardOf(e, i))
  {
  }

  /** The metadata map `getMetaData` builds from the two batch reads without failures. */
  function ReportedMeta(e: Settings, s: Store, id: string): map<string, MetaData>
  {
    var c := ReadMetaBatch(s, MetaKeys(e, id, Counters), Proceed).value;
    var p := ReadMetaBatch(s, MetaKeys(e, id, Pointers), Proceed).value;
    MetaMap(e, c, p)
  }

  /** Without failures, `getMetaData` returns the map built from its two batch reads. */
  lemma GetMetaDataSucceeds(e: Settings, s: Store, id: string)
    ensures GetMetaDataOp(e, s, id, NoFault) == Ok(ReportedMeta(e, s, id))
  {
  }

  /** The reported map has one entry per shard number, holding that shard's counters and pointers. */
  lemma ReportedMetaEntries(e: Settings, s: Store, id: string)
    ensures var meta := ReportedMeta(e, s, id);
            && (forall l :: l in meta <==> exists i :: 0 <= i < e.shards && l == ShardLabel(i))
            && (forall i :: 0 <= i < e.shards ==> meta[ShardLabel(i)] == ShardMeta(s, id, ShardOf(e, i)))
  {
    var meta := ReportedMeta(e, s, id);
    ShardLabelsDistinct();
    forall i | 0 <= i < e.shards
      ensures ShardLabel(i) in meta && meta[ShardLabel(i)] == ShardMeta(s, id, ShardOf(e, i))
    {
      MetaDataOfShard(e, s, id, i);
    }
  }

  /**
    Without failures, `getMetaData` returns one entry per shard number, labelled
    `SHARD_<i>`, holding that shard's counters and pointers; for one shard the entry is
    SHARD_0 and holds the unsharded records.
   */
  lemma GetMetaDataReportsShards(e: Settings, s: Store, id: string)
    ensures var r := GetMetaDataOp(e, s, id, NoFault);
            && r.Ok?
            && (forall l :: l in r.value <==> exists i :: 0 <= i < e.shards && l == ShardLabel(i))
            && (forall i :: 0 <= i < e.shards ==> r.value[ShardLabel(i)] == ShardMeta(s, id, ShardOf(e, i)))
  {
    GetMetaDataSucceeds(e, s, id);
    ReportedMetaEntries(e, s, id);
  }

  /** A failed batch read fails `getMetaData` with RETRIES_EXHAUSTED or CONNECTION_ERROR. */
  lemma GetMetaDataFailure(e: Settings, s: Store, id: string, step: Step, failure: Failure)
    requires step == CounterBatchRead || step == PointerBatchRead
    requires failure != NoRecord
    ensures var r := GetMetaDataOp(e, s, id, FaultAt(step, failure));
            && r.Err?
            && r.error.code == (if failure == AttemptsExhausted then RetriesExhausted else ConnectionError)
            && r.error.message == Describe(ErrorGettingMetaData, id)
  {
  }

  /** The picked active label of fresh metadata names one of the magazine's shards, and an active one. */
  lemma ActiveLabelShard(e: Settings, s: Store, id: string, r: Round) returns (i: int, shard: Option<int>)
    requires ValidRound(e, r) && 0 <= r.pick < |r.active|
    requires r.active[r.pick] in ActiveLabels(GetMetaDataOp(e, s, id, NoFault).value)
    requires CallAt(r.fault, ActiveShardsLoad) == Proceed
    ensures 0 <= i < e.shards && shard == ShardOf(e, i)
    ensures FireShard(e, id, r) == Done(shard) && IsActive(ShardMeta(s, id, shard))
  {
    GetMetaDataSucceeds(e, s, id);
    ReportedMetaEntries(e, s, id);
    var meta := ReportedMeta(e, s, id);
    assert r.active[r.pick] in meta;
    i :| 0 <= i < e.shards && r.active[r.pick] == ShardLabel(i);
    shard := ShardOf(e, i);
    if e.shards > 1 {
      FireShardOfLabel(e, id, r, i);
    }
  }

  /** An active shard has a pointer record whose fire pointer is behind its load pointer. */
  lemma ActiveShardIsBehind(s: Store, id: string, shard: Option<int>)
    requires IsActive(ShardMeta(s, id, shard))
    ensures PointerKey(id, shard) in s.meta
    ensures ShardMeta(s, id, shard).firePointer < ShardMeta(s, id, shard).loadPointer
  {
  }

  /** Fire picks `shard`, whose queue is not empty, and the pass takes the queue's head. */
  predicate FiresHeadOf(e: Settings, s: Store, id: string, r: Round, shard: Option<int>)
    requires ValidRound(e, r)
  {
    && FireShard(e, id, r) == Done(shard)
    && |Pending(s, id, shard)| > 0
    && FireAttempt(e, s, id, r).1 ==
         HeadShot(e, id, shard, ShardMeta(s, id, shard).firePointer + 1, Pending(s, id, shard)[0])
  }

  /**
    A label of the fire cache taken from fresh metadata leads to a shard with something
    queued: fire picks that shard, its queue is not empty, and without failures the pass
    takes the queue's head.
   */
  lemma FreshCacheFires(e: Settings, s: Store, id: string, r: Round)
    requires ValidRound(e, r) && r.fault == NoFault && 0 <= r.pick < |r.active|
    requires r.active[r.pick] in ActiveLabels(GetMetaDataOp(e, s, id, NoFault).value)
    ensures exists i :: 0 <= i < e.shards && FiresHeadOf(e, s, id, r, ShardOf(e, i))
  {
    var i, shard := ActiveLabelShard(e, s, id, r);
    ActiveShardIsBehind(s, id, shard);
    FireTakesHead(e, s, id, r, shard);
    assert FiresHeadOf(e, s, id, r, shard);
  }

  /**
    Without failures, a peek succeeds exactly when every requested item the store holds
    is of the magazine's class, and then returns exactly those items: an item is in the
    result when its magazine, shard and position were requested and the store holds its
    data at that slot.
   */
  lemma PeekReturnsStoredItems(e: Settings, s: Store, id: string, request: map<Option<int>, set<int>>)
    ensures var r := PeekOp(e, s, id, request, NoFault);
            && (r.Ok? <==> forall shard, p :: shard in request && p in request[shard] && Slot(s, id, shard, p).Some? ==>
                                               CastSucceeds(e.clazz, Slot(s, id, shard, p).value))
            && (r.Ok? ==> forall m :: m in r.value <==>
                            && m.magazineIdentifier == id && m.shard in request && m.firePointer in request[m.shard]
                            && Slot(s, id, m.shard, m.firePointer) == Some(m.data))
  {
    var found := ReadDataBatch(s, PeekKeys(id, request), Proceed).value;
    var items := PeekItems(id, request, found);
    forall shard, p | shard in request && p in request[shard]
      ensures DataKey(id, shard, p) in found <==> Slot(s, id, shard, p).Some?
      ensures DataKey(id, shard, p) in found ==> Some(found[DataKey(id, shard, p)]) == Slot(s, id, shard, p)
    {
      assert DataKey(id, shard, p) in PeekKeys(id, request);
    }
    if !(forall m :: m in items ==> CastSucceeds(e.clazz, m.data)) {
      var m :| m in items && !CastSucceeds(e.clazz, m.data);
      assert Slot(s, id, m.shard, m.firePointer) == Some(m.data);
    } else {
      forall shard, p | shard in request && p in request[shard] && Slot(s, id, shard, p).Some?
        ensures CastSucceeds(e.clazz, Slot(s, id, shard, p).value)
      {
        assert MagazineData(Slot(s, id, shard, p).value, p, shard, id) in items;
      }
    }
    forall m: MagazineData
      ensures m in items <==>
                && m.magazineIdentifier == id && m.shard in request && m.firePointer in request[m.shard]
                && Slot(s, id, m.shard, m.firePointer) == Some(m.data)
    {
      if m.magazineIdentifier == id && m.shard in request && m.firePointer in request[m.shard]
         && Slot(s, id, m.shard, m.firePointer) == Some(m.data) {
        assert m == MagazineData(found[DataKey(id, m.shard, m.firePointer)], m.firePointer, m.shard, id);
      }
    }
  }

  /** A requested item of another class fails the whole peek with INTERNAL_ERROR. */
  lemma PeekCastFailure(e: Settings, s: Store, id: string, request: map<Option<int>, set<int>>, shard: Option<int>, p: int)
    requires shard in request && p in request[shard]
    requires Slot(s, id, shard, p).Some? && !CastSucceeds(e.clazz, Slot(s, id, shard, p).value)
    ensures var r := PeekOp(e, s, id, request, NoFault);
            r.Err? && r.error.code == InternalError && r.error.message == DefaultMessage
  {
    PeekReturnsStoredItems(e, s, id, request);
  }

  /** A delete without failures removes the item's record and nothing else. */
  lemma DeleteRemovesItem(s: Store, m: MagazineData)
    ensures var (t, r) := DeleteOp(s, m, NoFault);
            && r == Ok(())
            && t == s.(data := s.data - {DataKey(m.magazineIdentifier, m.shard, m.firePointer)})
            && Slot(t, m.magazineIdentifier, m.shard, m.firePointer) == None
            && forall p :: p != m.firePointer ==> Slot(t, m.magazineIdentifier, m.shard, p) == Slot(s, m.magazineIdentifier, m.shard, p)
  {
    var t := DeleteOp(s, m, NoFault).0;
    forall p | p != m.firePointer
      ensures Slot(t, m.magazineIdentifier, m.shard, p) == Slot(s, m.magazineIdentifier, m.shard, p)
    {
      DataKeyInjective(m.magazineIdentifier, m.shard, p, m.shard, m.firePointer);
    }
  }

  /** A failed delete leaves the store as it was, with RETRIES_EXHAUSTED or CONNECTION_ERROR. */
  lemma DeleteFailure(s: Store, m: MagazineData, failure: Failure)
    requires failure != NoRecord
    ensures var (t, r) := DeleteOp(s, m, FaultAt(DataDelete, failure));
            && t == s && r.Err?
            && r.error.code == (if failure == AttemptsExhausted then RetriesExhausted else ConnectionError)
  {
  }

  /**
    Deleting an item at or behind its shard's fire pointer (an item already fired)
    leaves every queue of its magazine as it was.
   */
  lemma DeleteFiredKeepsQueues(s: Store, m: MagazineData)
    requires m.firePointer <= ShardMeta(s, m.magazineIdentifier, m.shard).firePointer
    ensures var t := DeleteOp(s, m, NoFault).0;
            forall shard: Option<int> :: shard.Some? == m.shard.Some? ==>
              Pending(t, m.magazineIdentifier, shard) == Pending(s, m.magazineIdentifier, shard)
  {
    var id := m.magazineIdentifier;
    DeleteRemovesItem(s, m);
    var t := DeleteOp(s, m, NoFault).0;
    forall shard: Option<int> | shard.Some? == m.shard.Some?
      ensures Pending(t, id, shard) == Pending(s, id, shard)
    {
      if shard == m.shard {
        var fp := ShardMeta(s, id, shard).firePointer;
        var q := Pending(s, id, shard);
        forall i | 0 <= i < |q|
          ensures Pending(t, id, shard)[i] == q[i]
        {
          assert fp + 1 + i != m.firePointer;
        }
      } else {
        forall p
          ensures Slot(t, id, shard, p) == Slot(s, id, shard, p)
        {
          OtherShardRecords(id, m.shard, shard, m.firePointer, p);
        }
        ShardUntouched(s, t, id, shard);
      }
    }
  }

  /** An item just fired and then deleted: the delete takes its record and leaves every queue as the fire left it. */
  lemma FireThenDelete(e: Settings, s: Store, id: string, r: Round)
    requires ValidRound(e, r)
    ensures var (t, shot) := FireAttempt(e, s, id, r);
            shot.Fired? ==>
              var u := DeleteOp(t, shot.item, NoFault).0;
              && Slot(u, id, shot.item.shard, shot.item.firePointer) == None
              && forall shard: Option<int> :: shard.Some? == shot.item.shard.Some? ==> Pending(u, id, shard) == Pending(t, id, shard)
  {
    var (t, shot) := FireAttempt(e, s, id, r);
    FiredItemIsBehindFirePointer(e, s, id, r);
    if shot.Fired? {
      DeleteRemovesItem(t, shot.item);
      DeleteFiredKeepsQueues(t, shot.item);
    }
  }
}
