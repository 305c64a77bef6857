/**
  What `fire` promises about the store: it takes the head of the picked shard's queue,
  a missing data record costs its place in the queue, a drained shard yields nothing
  yet, and every failure surfaces as NOTHING_TO_FIRE, MAGAZINE_UNPREPARED or
  CONNECTION_ERROR.
 */
module FireLemmas {
  import opened Wrappers
  import opened Text
  import opened Errors
  import opened Keys
  import opened Records
  import opened Kv
  import opened Protocol
  import opened QueueLemmas

  /** The store after fire's add-and-get on the fire pointer of a shard. */
  function FirePointerMoved(s: Store, id: string, shard: Option<int>): Store
  {
    var pk := PointerKey(id, shard);
    var rec := MetaRecord(s, pk);
    s.(meta := s.meta[pk := rec[FirePointerBin := BinValue(rec, FirePointerBin) + 1]])
  }

  /** The store after fire's add-and-get on the fire counter of a shard. */
  function FireCounted(s: Store, id: string, shard: Option<int>): Store
  {
    var ck := CounterKey(id, shard);
    var rec := MetaRecord(s, ck);
    s.(meta := s.meta[ck := rec[FireCounterBin := BinValue(rec, FireCounterBin) + 1]])
  }

  /** A queue loses its head when the fire pointer moves one step and nothing else changes. */
  lemma PendingShrinks(s: Store, t: Store, id: string, shard: Option<int>)
    requires ShardMeta(s, id, shard).firePointer < ShardMeta(s, id, shard).loadPointer
    requires ShardMeta(t, id, shard).firePointer == ShardMeta(s, id, shard).firePointer + 1
    requires ShardMeta(t, id, shard).loadPointer == ShardMeta(s, id, shard).loadPointer
    requires t.data == s.data
    ensures Pending(t, id, shard) == Pending(s, id, shard)[1..]
  {
    var q := Pending(s, id, shard);
    var q' := Pending(t, id, shard);
    assert |q'| == |q| - 1;
    var fp := ShardMeta(s, id, shard).firePointer;
    forall i | 0 <= i < |q'|
      ensures q'[i] == q[i + 1]
    {
      assert q'[i] == Slot(t, id, shard, fp + 2 + i) == Slot(s, id, shard, fp + 2 + i);
    }
  }

  /** Moving the fire pointer drops the head of that shard's queue and touches no other shard. */
  lemma FirePointerMovedEffect(s: Store, id: string, shard: Option<int>)
    requires ShardMeta(s, id, shard).firePointer < ShardMeta(s, id, shard).loadPointer
    ensures var t := FirePointerMoved(s, id, shard);
            var m := ShardMeta(s, id, shard);
            && Pending(t, id, shard) == Pending(s, id, shard)[1..]
            && ShardMeta(t, id, shard) == m.(firePointer := m.firePointer + 1)
            && forall other: Option<int> :: other != shard && other.Some? == shard.Some? ==>
                 Pending(t, id, other) == Pending(s, id, other) && ShardMeta(t, id, other) == ShardMeta(s, id, other)
  {
    var t := FirePointerMoved(s, id, shard);
    ShardRecordsDistinct(id, shard);
    BinNamesDistinct();
    PendingShrinks(s, t, id, shard);
    forall other: Option<int> | other != shard && other.Some? == shard.Some?
      ensures Pending(t, id, other) == Pending(s, id, other) && ShardMeta(t, id, other) == ShardMeta(s, id, other)
    {
      OtherShardRecords(id, shard, other, 0, 0);
      ShardUntouched(s, t, id, other);
    }
  }

  /** Adding to a bin other than the two pointer bins leaves every record's pointers as they were. */
  lemma CounterBumpKeepsPointers(s: Store, key: string, bin: string, delta: int)
    requires bin != FirePointerBin && bin != LoadPointerBin
    ensures var t := s.(meta := s.meta[key := MetaRecord(s, key)[bin := BinValue(MetaRecord(s, key), bin) + delta]]);
            forall k :: BinValue(MetaRecord(t, k), FirePointerBin) == BinValue(MetaRecord(s, k), FirePointerBin) &&
                        BinValue(MetaRecord(t, k), LoadPointerBin) == BinValue(MetaRecord(s, k), LoadPointerBin)
  {
  }

  /** The fire counter bin is neither pointer bin. */
  lemma FireCounterIsNoPointer()
    ensures FireCounterBin != FirePointerBin && FireCounterBin != LoadPointerBin
  {
    assert FireCounterBin[5] != FirePointerBin[5];
    assert FireCounterBin[0] != LoadPointerBin[0];
  }

  /** Queues depend on the pointers and the data only. */
  lemma PendingSamePointers(s: Store, t: Store, id: string, shard: Option<int>)
    requires t.data == s.data
    requires ShardMeta(t, id, shard).firePointer == ShardMeta(s, id, shard).firePointer
    requires ShardMeta(t, id, shard).loadPointer == ShardMeta(s, id, shard).loadPointer
    ensures Pending(t, id, shard) == Pending(s, id, shard)
  {
    var q := Pending(s, id, shard);
    var q' := Pending(t, id, shard);
    var fp := ShardMeta(s, id, shard).firePointer;
    assert |q'| == |q|;
    forall i | 0 <= i < |q|
      ensures q'[i] == q[i]
    {
      assert q'[i] == Slot(t, id, shard, fp + 1 + i) == Slot(s, id, shard, fp + 1 + i);
    }
  }

  /** Counting a fire changes no pointer and no queue. */
  lemma FireCountedKeepsQueues(s: Store, id: string, shard: Option<int>)
    ensures var t := FireCounted(s, id, shard);
            forall other: Option<int> ::
              && ShardMeta(t, id, other).firePointer == ShardMeta(s, id, other).firePointer
              && ShardMeta(t, id, other).loadPointer == ShardMeta(s, id, other).loadPointer
              && Pending(t, id, other) == Pending(s, id, other)
  {
    var t := FireCounted(s, id, shard);
    FireCounterIsNoPointer();
    CounterBumpKeepsPointers(s, CounterKey(id, shard), FireCounterBin, 1);
    forall other: Option<int>
      ensures Pending(t, id, other) == Pending(s, id, other)
    {
      PendingSamePointers(s, t, id, other);
    }
  }

  /** Counting a fire raises that shard's fire counter and leaves the other shards' metadata alone. */
  lemma FireCountedEffect(s: Store, id: string, shard: Option<int>)
    ensures var t := FireCounted(s, id, shard);
            var m := ShardMeta(s, id, shard);
            && ShardMeta(t, id, shard) == m.(fireCounter := m.fireCounter + 1)
            && (forall other: Option<int> :: Pending(t, id, other) == Pending(s, id, other))
            && (forall other: Option<int> :: other != shard && other.Some? == shard.Some? ==> ShardMeta(t, id, other) == ShardMeta(s, id, other))
  {
    var t := FireCounted(s, id, shard);
    ShardRecordsDistinct(id, shard);
    FireCountedKeepsQueues(s, id, shard);
    forall other: Option<int> | other != shard && other.Some? == shard.Some?
      ensures ShardMeta(t, id, other) == ShardMeta(s, id, other)
    {
      OtherShardRecords(id, shard, other, 0, 0);
    }
  }

  /** What one fire pass finds at the head of a shard's queue, given the magazine's class. */
  function HeadShot(e: Settings, id: string, shard: Option<int>, position: int, head: Option<Payload>): Shot
  {
    match head
    case None => NotYet
    case Some(v) => if CastSucceeds(e.clazz, v) then Fired(MagazineData(v, position, shard, id)) else Raised(ClassCast)
  }

  /** The store after one fire pass that found its shard behind: fire pointer moved, and counted when fired. */
  function FiredStore(e: Settings, s: Store, id: string, shard: Option<int>): Store
  {
    var s1 := FirePointerMoved(s, id, shard);
    var head := Slot(s, id, shard, ShardMeta(s, id, shard).firePointer + 1);
    if head.Some? && CastSucceeds(e.clazz, head.value) then FireCounted(s1, id, shard) else s1
  }

  /** Without failures, `FireFrom` on a shard that is behind yields `HeadShot` and leaves `FiredStore`. */
  lemma FireFromBehind(e: Settings, s: Store, id: string, shard: Option<int>)
    requires PointerKey(id, shard) in s.meta
    requires ShardMeta(s, id, shard).firePointer < ShardMeta(s, id, shard).loadPointer
    ensures var position := ShardMeta(s, id, shard).firePointer + 1;
            FireFrom(e, s, id, shard, s.meta[PointerKey(id, shard)], NoFault) ==
              (FiredStore(e, s, id, shard), HeadShot(e, id, shard, position, Slot(s, id, shard, position)))
  {
    var position := ShardMeta(s, id, shard).firePointer + 1;
    var s1 := FirePointerMoved(s, id, shard);
    assert Slot(s1, id, shard, position) == Slot(s, id, shard, position);
  }

  /**
    One fire pass without failures, on a shard whose pointer record exists and whose fire
    pointer is behind its load pointer: the pass returns the head of the queue cast to
    the magazine's class, or nothing yet when the head's record is gone, or a class-cast
    failure; in every case the fire pointer moves one step and the head leaves the queue,
    the fire counter counts only a returned item, and no other shard changes.
   */
  lemma FireTakesHead(e: Settings, s: Store, id: string, r: Round, shard: Option<int>)
    requires ValidRound(e, r) && r.fault == NoFault && FireShard(e, id, r) == Done(shard)
    requires PointerKey(id, shard) in s.meta
    requires ShardMeta(s, id, shard).firePointer < ShardMeta(s, id, shard).loadPointer
    ensures var (t, shot) := FireAttempt(e, s, id, r);
            var m := ShardMeta(s, id, shard);
            var head := Pending(s, id, shard)[0];
            && shot == HeadShot(e, id, shard, m.firePointer + 1, head)
            && Pending(t, id, shard) == Pending(s, id, shard)[1..]
            && ShardMeta(t, id, shard) == m.(firePointer := m.firePointer + 1,
                                             fireCounter := m.fireCounter + (if shot.Fired? then 1 else 0))
            && t.data == s.data && t.markers == s.markers && t.locks == s.locks
            && forall other: Option<int> :: other != shard && other.Some? == shard.Some? ==>
                 Pending(t, id, other) == Pending(s, id, other) && ShardMeta(t, id, other) == ShardMeta(s, id, other)
  {
    var m := ShardMeta(s, id, shard);
    FireFromBehind(e, s, id, shard);
    assert FireAttempt(e, s, id, r) == FireFrom(e, s, id, shard, s.meta[PointerKey(id, shard)], NoFault);
    var s1 := FirePointerMoved(s, id, shard);
    FirePointerMovedEffect(s, id, shard);
    FireCountedEffect(s1, id, shard);
    assert Pending(s, id, shard)[0] == Slot(s, id, shard, m.firePointer + 1);
  }

  /** A shard whose fire pointer has caught up with its load pointer yields nothing yet and changes nothing. */
  lemma FireDrained(e: Settings, s: Store, id: string, r: Round, shard: Option<int>)
    requires ValidRound(e, r) && FireShard(e, id, r) == Done(shard)
    requires CallAt(r.fault, PointerRead) == Proceed && PointerKey(id, shard) in s.meta
    requires ShardMeta(s, id, shard).firePointer >= ShardMeta(s, id, shard).loadPointer
    ensures FireAttempt(e, s, id, r) == (s, NotYet)
  {
  }

  /** A shard without a pointer record fails the pass with a null pointer, and the fire with CONNECTION_ERROR. */
  lemma FireWithoutPointerRecord(e: Settings, s: Store, id: string, r: Round, rest: seq<Round>, shard: Option<int>)
    requires ValidRound(e, r) && ValidRounds(e, rest) && FireShard(e, id, r) == Done(shard)
    requires CallAt(r.fault, PointerRead) == Proceed && PointerKey(id, shard) !in s.meta
    ensures FireAttempt(e, s, id, r) == (s, Raised(NullPointer))
    ensures ValidRounds(e, [r] + rest)
    ensures FireRounds(e, s, id, [r] + rest) ==
              (s, FireFailed(MagazineException(ConnectionError, Describe(ErrorFiringData, id), Some(Execution(NullPointer)))))
  {
    assert ([r] + rest)[0] == r;
  }

  /** An empty active-shard list ends the fire at once with NOTHING_TO_FIRE, the store unchanged. */
  lemma FireNothingToFire(e: Settings, s: Store, id: string, r: Round, rest: seq<Round>)
    requires ValidRound(e, r) && ValidRounds(e, rest) && |r.active| == 0
    requires CallAt(r.fault, ActiveShardsLoad) == Proceed
    ensures ValidRounds(e, [r] + rest)
    ensures FireRounds(e, s, id, [r] + rest) ==
              (s, FireFailed(MagazineException(NothingToFire, Describe(NoDataToFire, id), None)))
  {
    assert ([r] + rest)[0] == r;
  }

  /**
    When the active-shard cache cannot load its entry, the fire ends at once with
    CONNECTION_ERROR "Error firing data", the store unchanged: the metadata read's Magazine
    exception arrives twice wrapped, so its own code is lost.
   */
  lemma FireCacheLoadFails(e: Settings, s: Store, id: string, r: Round, rest: seq<Round>)
    requires ValidRound(e, r) && ValidRounds(e, rest) && Fails(CallAt(r.fault, ActiveShardsLoad))
    ensures ValidRounds(e, [r] + rest)
    ensures var (t, out) := FireRounds(e, s, id, [r] + rest);
            && t == s && out.FireFailed?
            && out.ex.code == ConnectionError && out.ex.message == Describe(ErrorFiringData, id)
  {
    assert ([r] + rest)[0] == r;
  }

  /** With one shard the unsharded keys are used, whatever label the cache lists. */
  lemma SingleShardFiresUnsharded(e: Settings, id: string, r: Round)
    requires ValidRound(e, r) && e.shards == 1 && |r.active| > 0
    requires CallAt(r.fault, ActiveShardsLoad) == Proceed
    ensures FireShard(e, id, r) == Done(None)
  {
  }

  /**
    A label the metadata lists names its shard: when the pick falls on `SHARD_<i>` for a
    shard number of a sharded magazine, the pass fires from shard i.
   */
  lemma FireShardOfLabel(e: Settings, id: string, r: Round, i: int)
    requires ValidRound(e, r) && e.shards > 1 && |r.active| > 0
    requires 0 <= i < e.shards && r.active[r.pick] == ShardLabel(i)
    requires CallAt(r.fault, ActiveShardsLoad) == Proceed
    ensures FireShard(e, id, r) == Done(Some(i))
  {
    ShardOfShardLabel(i);
  }

  /** A failed pass raises a Magazine exception of one of these two codes, or something else entirely. */
  predicate FireThrowable(t: Throwable)
  {
    t.Magazine? ==> t.ex.code == NothingToFire || t.ex.code == MagazineUnprepared
  }

  lemma FireAttemptRaises(e: Settings, s: Store, id: string, r: Round)
    requires ValidRound(e, r)
    ensures FireAttempt(e, s, id, r).1.Raised? ==> FireThrowable(FireAttempt(e, s, id, r).1.ex)
  {
    match FireShard(e, id, r)
    case Threw(_) =>
    case Done(shard) =>
      match ReadMeta(s, PointerKey(id, shard), CallAt(r.fault, PointerRead))
      case Threw(_) =>
      case Done(None) =>
      case Done(Some(rec)) => FireFromRaises(e, s, id, shard, rec, r.fault);
  }

  lemma FireFromRaises(e: Settings, s: Store, id: string, shard: Option<int>, rec: Bins, fault: Fault)
    ensures FireFrom(e, s, id, shard, rec, fault).1.Raised? ==> FireThrowable(FireFrom(e, s, id, shard, rec, fault).1.ex)
  {
  }

  /**
    However the passes go, a failed fire carries NOTHING_TO_FIRE, MAGAZINE_UNPREPARED or
    CONNECTION_ERROR: every throwable of the callable is wrapped, so an exhausted retryer
    inside a pass is reported as a connection error, not as RETRIES_EXHAUSTED.
   */
  lemma {:induction false} FireFailureCodes(e: Settings, s: Store, id: string, rounds: seq<Round>)
    requires ValidRounds(e, rounds)
    ensures var out := FireRounds(e, s, id, rounds).1;
            out.FireFailed? ==>
              out.ex.code == NothingToFire || out.ex.code == MagazineUnprepared || out.ex.code == ConnectionError
    decreases |rounds|
  {
    if |rounds| > 0 {
      assert ValidRound(e, rounds[0]);
      var (s1, shot) := FireAttempt(e, s, id, rounds[0]);
      FireAttemptRaises(e, s, id, rounds[0]);
      if shot.NotYet? {
        assert ValidRounds(e, rounds[1..]) by {
          forall i | 0 <= i < |rounds| - 1
            ensures ValidRound(e, rounds[1..][i])
          {
            assert rounds[1..][i] == rounds[i + 1];
          }
        }
        FireFailureCodes(e, s1, id, rounds[1..]);
      }
    }
  }

  /** Moving a fire pointer that was behind its load pointer keeps the pointers ordered. */
  lemma MovedKeepsOrder(s: Store, id: string, shard: Option<int>)
    requires PointersOrdered(s) && PointerKey(id, shard) in s.meta
    requires BinValue(s.meta[PointerKey(id, shard)], FirePointerBin) < BinValue(s.meta[PointerKey(id, shard)], LoadPointerBin)
    ensures PointersOrdered(FirePointerMoved(s, id, shard))
  {
    BinNamesDistinct();
  }

  /** Counting a fire keeps the pointers ordered. */
  lemma CountedKeepsOrder(s: Store, id: string, shard: Option<int>)
    requires PointersOrdered(s)
    ensures PointersOrdered(FireCounted(s, id, shard))
  {
    FireCounterIsNoPointer();
    var t := FireCounted(s, id, shard);
    CounterBumpKeepsPointers(s, CounterKey(id, shard), FireCounterBin, 1);
    forall k | k in t.meta
      ensures BinValue(t.meta[k], FirePointerBin) <= BinValue(t.meta[k], LoadPointerBin)
    {
      assert t.meta[k] == MetaRecord(t, k);
    }
  }

  /** The store a firing leaves is the one after some prefix of its two add-and-gets. */
  lemma FireFromStores(e: Settings, s: Store, id: string, shard: Option<int>, rec: Bins, fault: Fault)
    ensures var s1 := OperateAdd(s, PointerKey(id, shard), FirePointerBin, 1, CallAt(fault, PointerUpdate)).0;
            var t := FireFrom(e, s, id, shard, rec, fault).0;
            && (t == s || t == s1 || t == OperateAdd(s1, CounterKey(id, shard), FireCounterBin, 1, CallAt(fault, CounterUpdate)).0)
            && (!(BinValue(rec, FirePointerBin) < BinValue(rec, LoadPointerBin)) ==> t == s)
  {
  }

  /** The part of a pass after the pointer read keeps the pointers ordered. */
  lemma FireFromKeepsOrder(e: Settings, s: Store, id: string, shard: Option<int>, fault: Fault)
    requires PointersOrdered(s) && PointerKey(id, shard) in s.meta
    ensures PointersOrdered(FireFrom(e, s, id, shard, s.meta[PointerKey(id, shard)], fault).0)
  {
    var pk := PointerKey(id, shard);
    var rec := s.meta[pk];
    FireFromStores(e, s, id, shard, rec, fault);
    var s1 := OperateAdd(s, pk, FirePointerBin, 1, CallAt(fault, PointerUpdate)).0;
    AddShape(s, pk, FirePointerBin, 1, CallAt(fault, PointerUpdate));
    var s2 := OperateAdd(s1, CounterKey(id, shard), FireCounterBin, 1, CallAt(fault, CounterUpdate)).0;
    AddShape(s1, CounterKey(id, shard), FireCounterBin, 1, CallAt(fault, CounterUpdate));
    if BinValue(rec, FirePointerBin) < BinValue(rec, LoadPointerBin) {
      assert s1 == s || s1 == FirePointerMoved(s, id, shard);
      MovedKeepsOrder(s, id, shard);
      CountedKeepsOrder(s1, id, shard);
      assert s2 == s1 || s2 == FireCounted(s1, id, shard);
    }
  }

  /** One fire pass keeps every fire pointer at or behind its load pointer. */
  lemma FireAttemptKeepsOrder(e: Settings, s: Store, id: string, r: Round)
    requires ValidRound(e, r) && PointersOrdered(s)
    ensures PointersOrdered(FireAttempt(e, s, id, r).0)
  {
    match FireShard(e, id, r)
    case Threw(_) =>
    case Done(shard) =>
      if PointerKey(id, shard) in s.meta {
        FireFromKeepsOrder(e, s, id, shard, r.fault);
      }
  }

  /** Any run of fire passes keeps every fire pointer at or behind its load pointer. */
  lemma {:induction false} FireRoundsKeepOrder(e: Settings, s: Store, id: string, rounds: seq<Round>)
    requires ValidRounds(e, rounds) && PointersOrdered(s)
    ensures PointersOrdered(FireRounds(e, s, id, rounds).0)
    decreases |rounds|
  {
    if |rounds| > 0 {
      assert ValidRound(e, rounds[0]);
      FireAttemptKeepsOrder(e, s, id, rounds[0]);
      var (s1, shot) := FireAttempt(e, s, id, rounds[0]);
      if shot.NotYet? {
        assert ValidRounds(e, rounds[1..]) by {
          forall i | 0 <= i < |rounds| - 1
            ensures ValidRound(e, rounds[1..][i])
          {
            assert rounds[1..][i] == rounds[i + 1];
          }
        }
        FireRoundsKeepOrder(e, s1, id, rounds[1..]);
      }
    }
  }

  /**
    A fired item names the slot it came from: its key is that shard's data key at its
    position, and the position is now at the shard's fire pointer.
   */
  lemma FiredItemIsBehindFirePointer(e: Settings, s: Store, id: string, r: Round)
    requires ValidRound(e, r)
    ensures var (t, shot) := FireAttempt(e, s, id, r);
            shot.Fired? ==>
              && shot.item.magazineIdentifier == id
              && CreateAerospikeKey(shot.item) == DataKey(id, shot.item.shard, shot.item.firePointer)
              && ShardMeta(t, id, shot.item.shard).firePointer == shot.item.firePointer
              && Some(shot.item.data) == Slot(s, id, shot.item.shard, shot.item.firePointer)
  {
    match FireShard(e, id, r)
    case Threw(_) =>
    case Done(shard) =>
      match ReadMeta(s, PointerKey(id, shard), CallAt(r.fault, PointerRead))
      case Threw(_) =>
      case Done(None) =>
      case Done(Some(rec)) => FiredAtFirePointer(e, s, id, shard, rec, r.fault);
  }

  /** An item fired from a shard sits at the position the shard's fire pointer now holds. */
  lemma FiredAtFirePointer(e: Settings, s: Store, id: string, shard: Option<int>, rec: Bins, fault: Fault)
    ensures var (t, shot) := FireFrom(e, s, id, shard, rec, fault);
            shot.Fired? ==> ShardMeta(t, id, shard).firePointer == shot.item.firePointer
  {
    var (t, shot) := FireFrom(e, s, id, shard, rec, fault);
    if shot.Fired? {
      var pk := PointerKey(id, shard);
      ShardRecordsDistinct(id, shard);
      FireCounterIsNoPointer();
      var s1 := OperateAdd(s, pk, FirePointerBin, 1, CallAt(fault, PointerUpdate)).0;
      assert BinValue(MetaRecord(s1, pk), FirePointerBin) == shot.item.firePointer;
      assert t == OperateAdd(s1, CounterKey(id, shard), FireCounterBin, 1, CallAt(fault, CounterUpdate)).0;
      assert MetaRecord(t, pk) == MetaRecord(s1, pk);
    }
  }
}
