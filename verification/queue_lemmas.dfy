/**
  What `load` and `reload` promise about the store: the type check comes first, a
  duplicate changes nothing, a contended lock is refused, and a fresh item is
  appended to the selected shard's queue and to nothing else.
 */
module QueueLemmas {
  import opened Wrappers
  import opened Text
  import opened Errors
  import opened Keys
  import opened Records
  import opened Kv
  import opened Protocol

  /** The pointer and counter records of a shard are different records. */
  lemma ShardRecordsDistinct(id: string, shard: Option<int>)
    ensures PointerKey(id, shard) != CounterKey(id, shard)
  {
    CreateKeySameId(id, shard, Pointers, shard, Counters);
  }

  /** Two shards of one sharded magazine share no record. */
  lemma OtherShardRecords(id: string, a: Option<int>, b: Option<int>, p: int, q: int)
    requires a != b && a.Some? == b.Some?
    ensures PointerKey(id, a) != PointerKey(id, b) && PointerKey(id, a) != CounterKey(id, b)
    ensures CounterKey(id, a) != PointerKey(id, b) && CounterKey(id, a) != CounterKey(id, b)
    ensures DataKey(id, a, p) != DataKey(id, b, q)
  {
    CreateKeySameId(id, a, Pointers, b, Pointers);
    CreateKeySameId(id, a, Pointers, b, Counters);
    CreateKeySameId(id, a, Counters, b, Pointers);
    CreateKeySameId(id, a, Counters, b, Counters);
    DataKeyInjective(id, a, p, b, q);
  }

  /** The four bins of the pointer and counter records are four different bins. */
  lemma BinNamesDistinct()
    ensures LoadPointerBin != FirePointerBin && LoadCounterBin != FireCounterBin
  {
    assert LoadPointerBin[0] != FirePointerBin[0];
    assert LoadCounterBin[0] != FireCounterBin[0];
  }

  /** A store change that leaves a shard's records and data slots alone leaves its queue alone. */
  lemma ShardUntouched(s: Store, t: Store, id: string, shard: Option<int>)
    requires MetaRecord(t, PointerKey(id, shard)) == MetaRecord(s, PointerKey(id, shard))
    requires MetaRecord(t, CounterKey(id, shard)) == MetaRecord(s, CounterKey(id, shard))
    requires forall p :: Slot(t, id, shard, p) == Slot(s, id, shard, p)
    ensures ShardMeta(t, id, shard) == ShardMeta(s, id, shard)
    ensures Pending(t, id, shard) == Pending(s, id, shard)
  {
  }

  /** Stores with the same records have the same queues and metadata; locks and markers do not count. */
  lemma SameRecords(s: Store, t: Store, id: string)
    requires t.meta == s.meta && t.data == s.data
    ensures forall shard :: ShardMeta(t, id, shard) == ShardMeta(s, id, shard) && Pending(t, id, shard) == Pending(s, id, shard)
  {
    forall shard | true
      ensures ShardMeta(t, id, shard) == ShardMeta(s, id, shard) && Pending(t, id, shard) == Pending(s, id, shard)
    {
      ShardUntouched(s, t, id, shard);
    }
  }

  /**
    A queue grows by one item at its end when the load pointer moves one step past a
    fire pointer that stays put, and only the slot at the new load pointer changes.
   */
  lemma PendingGrows(s: Store, t: Store, id: string, shard: Option<int>, value: Payload)
    requires ShardMeta(s, id, shard).firePointer <= ShardMeta(s, id, shard).loadPointer
    requires ShardMeta(t, id, shard).firePointer == ShardMeta(s, id, shard).firePointer
    requires ShardMeta(t, id, shard).loadPointer == ShardMeta(s, id, shard).loadPointer + 1
    requires Slot(t, id, shard, ShardMeta(t, id, shard).loadPointer) == Some(value)
    requires forall p :: p <= ShardMeta(s, id, shard).loadPointer ==> Slot(t, id, shard, p) == Slot(s, id, shard, p)
    ensures Pending(t, id, shard) == Pending(s, id, shard) + [Some(value)]
  {
    var q := Pending(s, id, shard);
    var q' := Pending(t, id, shard);
    var fp := ShardMeta(s, id, shard).firePointer;
    var lp := ShardMeta(s, id, shard).loadPointer;
    assert |q| == lp - fp && |q'| == |q| + 1;
    forall i | 0 <= i < |q|
      ensures q'[i] == q[i]
    {
      assert fp + 1 + i <= lp;
      assert q'[i] == Slot(t, id, shard, fp + 1 + i) == Slot(s, id, shard, fp + 1 + i) == q[i];
    }
    assert q'[|q|] == Slot(t, id, shard, lp + 1) == Some(value);
    assert q' == q + [Some(value)];
  }

  /** Writing the data record of one position changes no other position's slot. */
  lemma OtherSlotsKept(s: Store, id: string, shard: Option<int>, position: int, value: Payload)
    ensures var t := s.(data := s.data[DataKey(id, shard, position) := value]);
            Slot(t, id, shard, position) == Some(value) &&
            forall p :: p != position ==> Slot(t, id, shard, p) == Slot(s, id, shard, p)
  {
    forall p | p != position
      ensures DataKey(id, shard, p) != DataKey(id, shard, position)
    {
      DataKeyInjective(id, shard, p, shard, position);
    }
  }

  /** The counter a load or reload adjusts, applied to a shard's metadata. */
  function Counted(m: MetaData, bin: string, delta: int): MetaData
  {
    if bin == LoadCounterBin then m.(loadCounter := m.loadCounter + delta)
    else m.(fireCounter := m.fireCounter + delta)
  }

  /**
    The store after an append without failures, written as the record updates it makes:
    the load pointer one step on, the data at the new position, the counter moved, and
    the marker when asked for.
   */
  function Appended(e: Settings, s: Store, id: string, value: Payload, shard: Option<int>, bin: string, delta: int, marker: bool): Store
  {
    var pk := PointerKey(id, shard);
    var ck := CounterKey(id, shard);
    var lp := ShardMeta(s, id, shard).loadPointer + 1;
    var s1 := s.(meta := s.meta[pk := MetaRecord(s, pk)[LoadPointerBin := lp]]);
    var s2 := s1.(data := s1.data[DataKey(id, shard, lp) := value]);
    var crec := MetaRecord(s2, ck);
    var s3 := s2.(meta := s2.meta[ck := crec[bin := BinValue(crec, bin) + delta]]);
    if marker then s3.(markers := s3.markers + {MarkerKey(e.scheme, id, value.text)}) else s3
  }

  /** Without failures, an append succeeds and leaves exactly `Appended`. */
  lemma AppendSucceeds(e: Settings, s: Store, id: string, value: Payload, shard: Option<int>,
                       lockId: string, bin: string, delta: int, marker: bool)
    ensures Append(e, s, id, value, shard, NoFault, lockId, bin, delta, marker) ==
              (Appended(e, s, id, value, shard, bin, delta, marker), Ok(true))
  {
    ShardRecordsDistinct(id, shard);
  }

  /** The shard an append writes to: one more item at the end of its queue, one step on its load pointer and counter. */
  lemma AppendedShard(e: Settings, s: Store, id: string, value: Payload, shard: Option<int>, bin: string, delta: int, marker: bool)
    requires bin == LoadCounterBin || bin == FireCounterBin
    requires ShardMeta(s, id, shard).firePointer <= ShardMeta(s, id, shard).loadPointer
    ensures var t := Appended(e, s, id, value, shard, bin, delta, marker);
            var m := ShardMeta(s, id, shard);
            && Pending(t, id, shard) == Pending(s, id, shard) + [Some(value)]
            && ShardMeta(t, id, shard) == Counted(m, bin, delta).(loadPointer := m.loadPointer + 1)
            && t.markers == (if marker then s.markers + {MarkerKey(e.scheme, id, value.text)} else s.markers)
            && t.locks == s.locks
  {
    var pk := PointerKey(id, shard);
    ShardRecordsDistinct(id, shard);
    BinNamesDistinct();
    var lp := ShardMeta(s, id, shard).loadPointer + 1;
    var s1 := s.(meta := s.meta[pk := MetaRecord(s, pk)[LoadPointerBin := lp]]);
    var t := Appended(e, s, id, value, shard, bin, delta, marker);
    OtherSlotsKept(s, id, shard, lp, value);
    assert t.data == s.data[DataKey(id, shard, lp) := value];
    forall p | p <= lp - 1
      ensures Slot(t, id, shard, p) == Slot(s, id, shard, p)
    {
      assert Slot(t, id, shard, p) == Slot(s.(data := t.data), id, shard, p);
    }
    PendingGrows(s, t, id, shard, value);
  }

  /** The shards an append does not write to keep their queues and metadata. */
  lemma AppendedOtherShards(e: Settings, s: Store, id: string, value: Payload, shard: Option<int>, bin: string, delta: int, marker: bool)
    ensures var t := Appended(e, s, id, value, shard, bin, delta, marker);
            forall other: Option<int> :: other != shard && other.Some? == shard.Some? ==>
              Pending(t, id, other) == Pending(s, id, other) && ShardMeta(t, id, other) == ShardMeta(s, id, other)
  {
    var t := Appended(e, s, id, value, shard, bin, delta, marker);
    var lp := ShardMeta(s, id, shard).loadPointer + 1;
    forall other: Option<int> | other != shard && other.Some? == shard.Some?
      ensures Pending(t, id, other) == Pending(s, id, other) && ShardMeta(t, id, other) == ShardMeta(s, id, other)
    {
      OtherShardRecords(id, shard, other, lp, 0);
      forall p
        ensures Slot(t, id, other, p) == Slot(s, id, other, p)
      {
        OtherShardRecords(id, shard, other, lp, p);
      }
      ShardUntouched(s, t, id, other);
    }
  }

  /**
    The append without failures: the data lands in the slot after the load pointer,
    so the shard's queue grows by exactly that item at its end; the load pointer and
    the chosen counter move by one step; no other shard changes.
   */
  lemma AppendEffect(e: Settings, s: Store, id: string, value: Payload, shard: Option<int>,
                     lockId: string, bin: string, delta: int, marker: bool)
    requires bin == LoadCounterBin || bin == FireCounterBin
    requires ShardMeta(s, id, shard).firePointer <= ShardMeta(s, id, shard).loadPointer
    ensures var (t, r) := Append(e, s, id, value, shard, NoFault, lockId, bin, delta, marker);
            var m := ShardMeta(s, id, shard);
            && r == Ok(true)
            && Pending(t, id, shard) == Pending(s, id, shard) + [Some(value)]
            && ShardMeta(t, id, shard) == Counted(m, bin, delta).(loadPointer := m.loadPointer + 1)
            && t.markers == (if marker then s.markers + {MarkerKey(e.scheme, id, value.text)} else s.markers)
            && t.locks == s.locks
            && forall other: Option<int> :: other != shard && other.Some? == shard.Some? ==>
                 Pending(t, id, other) == Pending(s, id, other) && ShardMeta(t, id, other) == ShardMeta(s, id, other)
  {
    AppendSucceeds(e, s, id, value, shard, lockId, bin, delta, marker);
    AppendedShard(e, s, id, value, shard, bin, delta, marker);
    AppendedOtherShards(e, s, id, value, shard, bin, delta, marker);
  }

  /** Data of the wrong class is refused before any lock or store call. */
  lemma MismatchedTypeChangesNothing(e: Settings, s: Store, id: string, value: Payload, draw: int, fault: Fault)
    requires ValidDraw(e, draw) && !TypeAccepted(e, value)
    ensures LoadOp(e, s, id, value, draw, fault) == (s, Err(TypeMismatch))
    ensures ReloadOp(e, s, id, value, draw, fault) == (s, Err(TypeMismatch))
    ensures TypeMismatch.code == DataTypeMismatch
  {
  }

  /**
    With dedupe on, loading data whose marker exists returns true and leaves the store
    exactly as it was: the lock taken is the lock released.
   */
  lemma DuplicateLoadChangesNothing(e: Settings, s: Store, id: string, value: Payload, draw: int, fault: Fault)
    requires ValidDraw(e, draw) && TypeAccepted(e, value) && e.enableDeDupe
    requires LockId(id, value.text) !in s.locks && MarkerKey(e.scheme, id, value.text) in s.markers
    requires CallAt(fault, DeDupeCheck) == Proceed
    ensures LoadOp(e, s, id, value, draw, fault) == (s, Ok(true))
  {
    var l := LockId(id, value.text);
    assert s.(locks := s.locks + {l}).(locks := s.locks + {l} - {l}) == s;
  }

  /**
    With dedupe on, a load or reload whose lock is held elsewhere is refused with
    ACTION_DENIED_PARALLEL_ATTEMPT naming the lock, and the finally block still releases
    that lock id.
   */
  lemma ContendedLockIsRefused(e: Settings, s: Store, id: string, value: Payload, draw: int, fault: Fault)
    requires ValidDraw(e, draw) && TypeAccepted(e, value) && e.enableDeDupe
    requires LockId(id, value.text) in s.locks
    ensures var ex := MagazineException(ActionDeniedParallelAttempt,
                                        "Error acquiring lock - " + LockId(id, value.text),
                                        Some(Dlm(LockUnavailable)));
            && LoadOp(e, s, id, value, draw, fault) == (ReleasedLock(s, LockId(id, value.text)), Err(ex))
            && ReloadOp(e, s, id, value, draw, fault) == (ReleasedLock(s, LockId(id, value.text)), Err(ex))
  {
  }

  /**
    A fresh load (no marker, or dedupe off) appends the item to the selected shard's
    queue: load pointer and load counter up by one, fire pointer and fire counter
    unchanged, the marker written exactly when dedupe is on, the lock released, and
    every other shard unchanged.
   */
  lemma LoadAppends(e: Settings, s: Store, id: string, value: Payload, draw: int)
    requires ValidDraw(e, draw) && TypeAccepted(e, value)
    requires e.enableDeDupe ==> LockId(id, value.text) !in s.locks && MarkerKey(e.scheme, id, value.text) !in s.markers
    requires ShardMeta(s, id, SelectShard(e, draw)).firePointer <= ShardMeta(s, id, SelectShard(e, draw)).loadPointer
    ensures var shard := SelectShard(e, draw);
            var (t, r) := LoadOp(e, s, id, value, draw, NoFault);
            var m := ShardMeta(s, id, shard);
            && r == Ok(true)
            && Pending(t, id, shard) == Pending(s, id, shard) + [Some(value)]
            && ShardMeta(t, id, shard) == m.(loadPointer := m.loadPointer + 1, loadCounter := m.loadCounter + 1)
            && t.markers == (if e.enableDeDupe then s.markers + {MarkerKey(e.scheme, id, value.text)} else s.markers)
            && t.locks == s.locks - {LockId(id, value.text)}
            && forall other: Option<int> :: other != shard && other.Some? == shard.Some? ==>
                 Pending(t, id, other) == Pending(s, id, other) && ShardMeta(t, id, other) == ShardMeta(s, id, other)
  {
    var shard := SelectShard(e, draw);
    var l := LockId(id, value.text);
    var s1 := if e.enableDeDupe then s.(locks := s.locks + {l}) else s;
    assert LoadLocked(e, s, id, value, shard, NoFault, l) ==
           Append(e, s1, id, value, shard, NoFault, l, LoadCounterBin, 1, e.enableDeDupe);
    AppendEffect(e, s1, id, value, shard, l, LoadCounterBin, 1, e.enableDeDupe);
    var a := Append(e, s1, id, value, shard, NoFault, l, LoadCounterBin, 1, e.enableDeDupe);
    assert LoadOp(e, s, id, value, draw, NoFault) == (ReleasedLock(a.0, l), a.1);
    SameRecords(s, s1, id);
    SameRecords(a.0, ReleasedLock(a.0, l), id);
  }

  /**
    A reload appends the item like a load, but lowers the fire counter instead of
    raising the load counter, and neither checks nor writes a dedupe marker.
   */
  lemma ReloadAppends(e: Settings, s: Store, id: string, value: Payload, draw: int)
    requires ValidDraw(e, draw) && TypeAccepted(e, value)
    requires e.enableDeDupe ==> LockId(id, value.text) !in s.locks
    requires ShardMeta(s, id, SelectShard(e, draw)).firePointer <= ShardMeta(s, id, SelectShard(e, draw)).loadPointer
    ensures var shard := SelectShard(e, draw);
            var (t, r) := ReloadOp(e, s, id, value, draw, NoFault);
            var m := ShardMeta(s, id, shard);
            && r == Ok(true)
            && Pending(t, id, shard) == Pending(s, id, shard) + [Some(value)]
            && ShardMeta(t, id, shard) == m.(loadPointer := m.loadPointer + 1, fireCounter := m.fireCounter - 1)
            && t.markers == s.markers
            && t.locks == s.locks - {LockId(id, value.text)}
            && forall other: Option<int> :: other != shard && other.Some? == shard.Some? ==>
                 Pending(t, id, other) == Pending(s, id, other) && ShardMeta(t, id, other) == ShardMeta(s, id, other)
  {
    var shard := SelectShard(e, draw);
    var l := LockId(id, value.text);
    var s1 := if e.enableDeDupe then s.(locks := s.locks + {l}) else s;
    assert ReloadLocked(e, s, id, value, shard, NoFault, l) ==
           Append(e, s1, id, value, shard, NoFault, l, FireCounterBin, -1, false);
    AppendEffect(e, s1, id, value, shard, l, FireCounterBin, -1, false);
    var a := Append(e, s1, id, value, shard, NoFault, l, FireCounterBin, -1, false);
    assert ReloadOp(e, s, id, value, draw, NoFault) == (ReleasedLock(a.0, l), a.1);
    SameRecords(s, s1, id);
    SameRecords(a.0, ReleasedLock(a.0, l), id);
  }

  /**
    When the load pointer's add-and-get comes back without a record, the load fails
    with MAGAZINE_UNPREPARED and changes nothing but the release of its lock id.
   */
  lemma LoadWithoutPointerRecord(e: Settings, s: Store, id: string, value: Payload, draw: int)
    requires ValidDraw(e, draw) && TypeAccepted(e, value)
    requires e.enableDeDupe ==> LockId(id, value.text) !in s.locks && MarkerKey(e.scheme, id, value.text) !in s.markers
    ensures LoadOp(e, s, id, value, draw, FaultAt(PointerUpdate, NoRecord)) ==
              (ReleasedLock(s, LockId(id, value.text)), Err(Unprepared(ErrorReadingPointers, id)))
    ensures Unprepared(ErrorReadingPointers, id).code == MagazineUnprepared
  {
    var l := LockId(id, value.text);
    assert s.(locks := s.locks + {l}).(locks := s.locks + {l} - {l}) == ReleasedLock(s, l);
  }

  /**
    When the load counter's add-and-get comes back without a record, the load fails
    with MAGAZINE_UNPREPARED although the item was already appended: the queue holds
    it while the load counter does not count it.
   */
  lemma LoadWithoutCounterRecord(e: Settings, s: Store, id: string, value: Payload, draw: int)
    requires ValidDraw(e, draw) && TypeAccepted(e, value)
    requires e.enableDeDupe ==> LockId(id, value.text) !in s.locks && MarkerKey(e.scheme, id, value.text) !in s.markers
    requires ShardMeta(s, id, SelectShard(e, draw)).firePointer <= ShardMeta(s, id, SelectShard(e, draw)).loadPointer
    ensures var shard := SelectShard(e, draw);
            var (t, r) := LoadOp(e, s, id, value, draw, FaultAt(CounterUpdate, NoRecord));
            && r == Err(Unprepared(ErrorReadingCounters, id))
            && Pending(t, id, shard) == Pending(s, id, shard) + [Some(value)]
            && ShardMeta(t, id, shard).loadCounter == ShardMeta(s, id, shard).loadCounter
            && t.markers == s.markers
  {
    var shard := SelectShard(e, draw);
    var l := LockId(id, value.text);
    var s0 := if e.enableDeDupe then s.(locks := s.locks + {l}) else s;
    SameRecords(s, s0, id);
    AppendWithoutCounterRecord(e, s0, id, value, shard, l, e.enableDeDupe);
    var s2 := Append(e, s0, id, value, shard, FaultAt(CounterUpdate, NoRecord), l, LoadCounterBin, 1, e.enableDeDupe).0;
    assert LoadLocked(e, s, id, value, shard, FaultAt(CounterUpdate, NoRecord), l) ==
           (s2, Err(Unprepared(ErrorReadingCounters, id)));
    LandedWithoutCount(s0, id, shard, value);
    SameRecords(s2, ReleasedLock(s2, l), id);
  }

  /** The pointer raised and the data written, with no counter moved: one more item, the same count. */
  lemma LandedWithoutCount(s: Store, id: string, shard: Option<int>, value: Payload)
    requires ShardMeta(s, id, shard).firePointer <= ShardMeta(s, id, shard).loadPointer
    ensures var lp := ShardMeta(s, id, shard).loadPointer + 1;
            var pk := PointerKey(id, shard);
            var s1 := s.(meta := s.meta[pk := MetaRecord(s, pk)[LoadPointerBin := lp]]);
            var t := s1.(data := s1.data[DataKey(id, shard, lp) := value]);
            && Pending(t, id, shard) == Pending(s, id, shard) + [Some(value)]
            && ShardMeta(t, id, shard).loadCounter == ShardMeta(s, id, shard).loadCounter
            && t.markers == s.markers
  {
    var pk := PointerKey(id, shard);
    ShardRecordsDistinct(id, shard);
    BinNamesDistinct();
    var lp := ShardMeta(s, id, shard).loadPointer + 1;
    var s1 := s.(meta := s.meta[pk := MetaRecord(s, pk)[LoadPointerBin := lp]]);
    var t := s1.(data := s1.data[DataKey(id, shard, lp) := value]);
    OtherSlotsKept(s1, id, shard, lp, value);
    PendingGrows(s, t, id, shard, value);
  }

  /** An append whose counter add-and-get finds no record stops there, past the data write. */
  lemma AppendWithoutCounterRecord(e: Settings, s: Store, id: string, value: Payload, shard: Option<int>,
                                   lockId: string, marker: bool)
    ensures var lp := ShardMeta(s, id, shard).loadPointer + 1;
            var pk := PointerKey(id, shard);
            var s1 := s.(meta := s.meta[pk := MetaRecord(s, pk)[LoadPointerBin := lp]]);
            Append(e, s, id, value, shard, FaultAt(CounterUpdate, NoRecord), lockId, LoadCounterBin, 1, marker) ==
            (s1.(data := s1.data[DataKey(id, shard, lp) := value]), Err(Unprepared(ErrorReadingCounters, id)))
  {
  }
}
