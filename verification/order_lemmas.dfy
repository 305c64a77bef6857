/**
  The queue invariant the engine keeps across any sequence of calls, whatever fails:
  no fire pointer ever passes its load pointer, so a shard's queue length is always
  the distance between the two.
 */
module OrderLemmas {
  import opened Wrappers
  import opened Errors
  import opened Keys
  import opened Records
  import opened Kv
  import opened Protocol
  import opened QueueLemmas
  import opened FireLemmas

  /** An add-and-get on the load pointer raises it and so keeps the pointers ordered. */
  lemma LoadPointerRaiseKeepsOrder(s: Store, key: string, call: Call)
    requires PointersOrdered(s)
    ensures PointersOrdered(OperateAdd(s, key, LoadPointerBin, 1, call).0)
  {
    BinNamesDistinct();
  }

  /** An add-and-get on a bin other than the pointer bins keeps the pointers ordered. */
  lemma OtherBinKeepsOrder(s: Store, key: string, bin: string, delta: int, call: Call)
    requires PointersOrdered(s) && bin != FirePointerBin && bin != LoadPointerBin
    ensures PointersOrdered(OperateAdd(s, key, bin, delta, call).0)
  {
    var t := OperateAdd(s, key, bin, delta, call).0;
    CounterBumpKeepsPointers(s, key, bin, delta);
    forall k | k in t.meta
      ensures BinValue(t.meta[k], FirePointerBin) <= BinValue(t.meta[k], LoadPointerBin)
    {
      assert t.meta[k] == MetaRecord(t, k);
    }
  }

  /** The counter bins are not pointer bins. */
  lemma CounterBinsAreNoPointers()
    ensures LoadCounterBin != FirePointerBin && LoadCounterBin != LoadPointerBin
    ensures FireCounterBin != FirePointerBin && FireCounterBin != LoadPointerBin
  {
    assert LoadCounterBin[5] != FirePointerBin[5];
    assert LoadCounterBin[5] != LoadPointerBin[5];
    FireCounterIsNoPointer();
  }

  /**
    The pointer records an append can leave: those after its load-pointer add-and-get,
    or those after its counter add-and-get as well (the data and marker writes touch no
    pointer record).
   */
  predicate AppendMeta(s: Store, id: string, shard: Option<int>, fault: Fault, bin: string, delta: int, a: Store)
  {
    var s1 := OperateAdd(s, PointerKey(id, shard), LoadPointerBin, 1, CallAt(fault, PointerUpdate)).0;
    || a.meta == s1.meta
    || a.meta == OperateAdd(s1, CounterKey(id, shard), bin, delta, CallAt(fault, CounterUpdate)).0.meta
  }

  lemma AppendStores(e: Settings, s: Store, id: string, value: Payload, shard: Option<int>, fault: Fault,
                     lockId: string, bin: string, delta: int, marker: bool)
    ensures AppendMeta(s, id, shard, fault, bin, delta, Append(e, s, id, value, shard, fault, lockId, bin, delta, marker).0)
  {
    var p := OperateAdd(s, PointerKey(id, shard), LoadPointerBin, 1, CallAt(fault, PointerUpdate));
    if p.1.Done? && p.1.value.Some? {
      AppendPastPointer(e, s, id, value, shard, fault, lockId, bin, delta, marker);
    }
  }

  /** Past its load-pointer add-and-get, an append changes pointer records only through its counter add-and-get. */
  lemma AppendPastPointer(e: Settings, s: Store, id: string, value: Payload, shard: Option<int>, fault: Fault,
                          lockId: string, bin: string, delta: int, marker: bool)
    requires var p := OperateAdd(s, PointerKey(id, shard), LoadPointerBin, 1, CallAt(fault, PointerUpdate));
             p.1.Done? && p.1.value.Some?
    ensures var p := OperateAdd(s, PointerKey(id, shard), LoadPointerBin, 1, CallAt(fault, PointerUpdate));
            var a := Append(e, s, id, value, shard, fault, lockId, bin, delta, marker).0;
            || a.meta == p.0.meta
            || a.meta == OperateAdd(p.0, CounterKey(id, shard), bin, delta, CallAt(fault, CounterUpdate)).0.meta
  {
    if !Fails(CallAt(fault, DataWrite)) {
      AppendPastData(e, s, id, value, shard, fault, lockId, bin, delta, marker);
    }
  }

  /** Past its data write, an append changes pointer records only through its counter add-and-get. */
  lemma AppendPastData(e: Settings, s: Store, id: string, value: Payload, shard: Option<int>, fault: Fault,
                       lockId: string, bin: string, delta: int, marker: bool)
    requires var p := OperateAdd(s, PointerKey(id, shard), LoadPointerBin, 1, CallAt(fault, PointerUpdate));
             p.1.Done? && p.1.value.Some? && !Fails(CallAt(fault, DataWrite))
    ensures var p := OperateAdd(s, PointerKey(id, shard), LoadPointerBin, 1, CallAt(fault, PointerUpdate));
            Append(e, s, id, value, shard, fault, lockId, bin, delta, marker).0.meta ==
            OperateAdd(p.0, CounterKey(id, shard), bin, delta, CallAt(fault, CounterUpdate)).0.meta
  {
    var p := OperateAdd(s, PointerKey(id, shard), LoadPointerBin, 1, CallAt(fault, PointerUpdate));
    var w := WriteData(p.0, DataKey(id, shard, p.1.value.value), value, CallAt(fault, DataWrite)).0;
    assert w.meta == p.0.meta;
  }

  /** An append keeps the pointers ordered, wherever it stops. */
  lemma AppendKeepsOrder(e: Settings, s: Store, id: string, value: Payload, shard: Option<int>, fault: Fault,
                         lockId: string, bin: string, delta: int, marker: bool)
    requires PointersOrdered(s) && (bin == LoadCounterBin || bin == FireCounterBin)
    ensures PointersOrdered(Append(e, s, id, value, shard, fault, lockId, bin, delta, marker).0)
  {
    AppendStores(e, s, id, value, shard, fault, lockId, bin, delta, marker);
    AppendMetaKeepsOrder(s, id, shard, fault, bin, delta, Append(e, s, id, value, shard, fault, lockId, bin, delta, marker).0);
  }

  lemma AppendMetaKeepsOrder(s: Store, id: string, shard: Option<int>, fault: Fault, bin: string, delta: int, a: Store)
    requires PointersOrdered(s) && (bin == LoadCounterBin || bin == FireCounterBin)
    requires AppendMeta(s, id, shard, fault, bin, delta, a)
    ensures PointersOrdered(a)
  {
    CounterBinsAreNoPointers();
    var s1 := OperateAdd(s, PointerKey(id, shard), LoadPointerBin, 1, CallAt(fault, PointerUpdate)).0;
    LoadPointerRaiseKeepsOrder(s, PointerKey(id, shard), CallAt(fault, PointerUpdate));
    OtherBinKeepsOrder(s1, CounterKey(id, shard), bin, delta, CallAt(fault, CounterUpdate));
  }

  /** A load keeps the pointers ordered, whatever fails. */
  lemma LoadKeepsOrder(e: Settings, s: Store, id: string, value: Payload, draw: int, fault: Fault)
    requires ValidDraw(e, draw) && PointersOrdered(s)
    ensures PointersOrdered(LoadOp(e, s, id, value, draw, fault).0)
  {
    if TypeAccepted(e, value) {
      var l := LockId(id, value.text);
      var shard := SelectShard(e, draw);
      var s1 := if e.enableDeDupe then AcquireLock(s, l).0 else s;
      AppendKeepsOrder(e, s1, id, value, shard, fault, l, LoadCounterBin, 1, false);
      AppendKeepsOrder(e, s1, id, value, shard, fault, l, LoadCounterBin, 1, true);
    }
  }

  /** A reload keeps the pointers ordered, whatever fails. */
  lemma ReloadKeepsOrder(e: Settings, s: Store, id: string, value: Payload, draw: int, fault: Fault)
    requires ValidDraw(e, draw) && PointersOrdered(s)
    ensures PointersOrdered(ReloadOp(e, s, id, value, draw, fault).0)
  {
    if TypeAccepted(e, value) {
      var l := LockId(id, value.text);
      var s1 := if e.enableDeDupe then AcquireLock(s, l).0 else s;
      AppendKeepsOrder(e, s1, id, value, SelectShard(e, draw), fault, l, FireCounterBin, -1, false);
    }
  }

  /** The engine calls that change the store, with what each call was given and met. */
  datatype Op =
    | LoadCall(value: Payload, draw: int, fault: Fault)
    | ReloadCall(value: Payload, draw: int, fault: Fault)
    | FireCall(rounds: seq<Round>)
    | DeleteCall(item: MagazineData, fault: Fault)

  predicate ValidOp(e: Settings, op: Op)
  {
    match op
    case LoadCall(_, draw, _) => ValidDraw(e, draw)
    case ReloadCall(_, draw, _) => ValidDraw(e, draw)
    case FireCall(rounds) => ValidRounds(e, rounds)
    case DeleteCall(_, _) => true
  }

  /** The store after one call on magazine `id`. */
  function Apply(e: Settings, s: Store, id: string, op: Op): Store
    requires ValidOp(e, op)
  {
    match op
    case LoadCall(value, draw, fault) => LoadOp(e, s, id, value, draw, fault).0
    case ReloadCall(value, draw, fault) => ReloadOp(e, s, id, value, draw, fault).0
    case FireCall(rounds) => FireRounds(e, s, id, rounds).0
    case DeleteCall(item, fault) => DeleteOp(s, item, fault).0
  }

  /** The store after a sequence of calls, in order. */
  function Run(e: Settings, s: Store, id: string, ops: seq<Op>): Store
    requires forall i :: 0 <= i < |ops| ==> ValidOp(e, ops[i])
    decreases |ops|
  {
    if |ops| == 0 then s
    else Run(e, Apply(e, s, id, ops[0]), id, ops[1..])
  }

  /** Every call keeps the pointers ordered. */
  lemma ApplyKeepsOrder(e: Settings, s: Store, id: string, op: Op)
    requires ValidOp(e, op) && PointersOrdered(s)
    ensures PointersOrdered(Apply(e, s, id, op))
  {
    match op
    case LoadCall(value, draw, fault) => LoadKeepsOrder(e, s, id, value, draw, fault);
    case ReloadCall(value, draw, fault) => ReloadKeepsOrder(e, s, id, value, draw, fault);
    case FireCall(rounds) => FireRoundsKeepOrder(e, s, id, rounds);
    case DeleteCall(item, fault) =>
  }

  /**
    From a store whose pointers are ordered, any sequence of loads, reloads, fires and
    deletes, with any failures, leaves them ordered; so every shard's queue then holds
    exactly load pointer minus fire pointer slots.
   */
  lemma {:induction false} RunKeepsOrder(e: Settings, s: Store, id: string, ops: seq<Op>)
    requires forall i :: 0 <= i < |ops| ==> ValidOp(e, ops[i])
    requires PointersOrdered(s)
    ensures PointersOrdered(Run(e, s, id, ops))
    ensures forall shard :: |Pending(Run(e, s, id, ops), id, shard)| ==
              ShardMeta(Run(e, s, id, ops), id, shard).loadPointer - ShardMeta(Run(e, s, id, ops), id, shard).firePointer
    decreases |ops|
  {
    if |ops| > 0 {
      ApplyKeepsOrder(e, s, id, ops[0]);
      RunKeepsOrder(e, Apply(e, s, id, ops[0]), id, ops[1..]);
    } else {
      forall shard
        ensures ShardMeta(s, id, shard).firePointer <= ShardMeta(s, id, shard).loadPointer
      {
        OrderedShard(s, id, shard);
      }
    }
  }

  /** In a store whose pointers are ordered, no shard's fire pointer is ahead of its load pointer. */
  lemma OrderedShard(s: Store, id: string, shard: Option<int>)
    requires PointersOrdered(s)
    ensures ShardMeta(s, id, shard).firePointer <= ShardMeta(s, id, shard).loadPointer
  {
    var pk := PointerKey(id, shard);
    if pk in s.meta {
      assert BinValue(s.meta[pk], FirePointerBin) <= BinValue(s.meta[pk], LoadPointerBin);
    }
  }

  // ---- Pointers only move forward ----

  /** No record's load or fire pointer in `t` is behind the same pointer in `s`. */
  ghost predicate PointersGrown(s: Store, t: Store)
  {
    forall k :: KeyGrown(s, t, k)
  }

  /** Neither pointer of record `k` in `t` is behind the same pointer in `s`. */
  predicate KeyGrown(s: Store, t: Store, k: string)
  {
    && BinValue(MetaRecord(s, k), LoadPointerBin) <= BinValue(MetaRecord(t, k), LoadPointerBin)
    && BinValue(MetaRecord(s, k), FirePointerBin) <= BinValue(MetaRecord(t, k), FirePointerBin)
  }

  /** An add-and-get that adds nothing negative to a pointer bin moves no pointer back. */
  lemma AddGrows(s: Store, key: string, bin: string, delta: int, call: Call)
    requires (bin == LoadPointerBin || bin == FirePointerBin) ==> delta >= 0
    ensures PointersGrown(s, OperateAdd(s, key, bin, delta, call).0)
  {
    var t := OperateAdd(s, key, bin, delta, call).0;
    forall k
      ensures KeyGrown(s, t, k)
    {
      if k == key && !Fails(call) && !call.Absent? {
        assert MetaRecord(t, k) == MetaRecord(s, k)[bin := BinValue(MetaRecord(s, k), bin) + delta];
      }
    }
  }

  /** Moving no pointer back, twice over, moves none back. */
  lemma GrownTransitive(s: Store, t: Store, u: Store)
    requires PointersGrown(s, t) && PointersGrown(t, u)
    ensures PointersGrown(s, u)
  {
    forall k
      ensures KeyGrown(s, u, k)
    {
      assert KeyGrown(s, t, k) && KeyGrown(t, u, k);
    }
  }

  /** An append moves no pointer back, wherever it stops. */
  lemma AppendGrows(e: Settings, s: Store, id: string, value: Payload, shard: Option<int>, fault: Fault,
                    lockId: string, bin: string, delta: int, marker: bool)
    requires bin == LoadCounterBin || bin == FireCounterBin
    ensures PointersGrown(s, Append(e, s, id, value, shard, fault, lockId, bin, delta, marker).0)
  {
    AppendStores(e, s, id, value, shard, fault, lockId, bin, delta, marker);
    AppendMetaGrows(s, id, shard, fault, bin, delta, Append(e, s, id, value, shard, fault, lockId, bin, delta, marker).0);
  }

  lemma AppendMetaGrows(s: Store, id: string, shard: Option<int>, fault: Fault, bin: string, delta: int, a: Store)
    requires bin == LoadCounterBin || bin == FireCounterBin
    requires AppendMeta(s, id, shard, fault, bin, delta, a)
    ensures PointersGrown(s, a)
  {
    CounterBinsAreNoPointers();
    var s1 := OperateAdd(s, PointerKey(id, shard), LoadPointerBin, 1, CallAt(fault, PointerUpdate)).0;
    AddGrows(s, PointerKey(id, shard), LoadPointerBin, 1, CallAt(fault, PointerUpdate));
    var s3 := OperateAdd(s1, CounterKey(id, shard), bin, delta, CallAt(fault, CounterUpdate)).0;
    AddGrows(s1, CounterKey(id, shard), bin, delta, CallAt(fault, CounterUpdate));
    GrownTransitive(s, s1, s3);
    if a.meta == s1.meta {
      SameMetaGrown(s1, a);
      GrownTransitive(s, s1, a);
    } else {
      SameMetaGrown(s3, a);
      GrownTransitive(s, s3, a);
    }
  }

  /** A load moves no pointer back, whatever fails. */
  lemma LoadGrows(e: Settings, s: Store, id: string, value: Payload, draw: int, fault: Fault)
    requires ValidDraw(e, draw)
    ensures PointersGrown(s, LoadOp(e, s, id, value, draw, fault).0)
  {
    var t := LoadOp(e, s, id, value, draw, fault).0;
    if TypeAccepted(e, value) {
      var l := LockId(id, value.text);
      var s1 := if e.enableDeDupe then AcquireLock(s, l).0 else s;
      SameMetaGrown(s, s1);
      var inner := LoadLocked(e, s, id, value, SelectShard(e, draw), fault, l).0;
      assert t == ReleasedLock(inner, l);
      SameMetaGrown(inner, t);
      if inner.meta != s.meta {
        assert inner == Append(e, s1, id, value, SelectShard(e, draw), fault, l, LoadCounterBin, 1, e.enableDeDupe).0;
        AppendGrows(e, s1, id, value, SelectShard(e, draw), fault, l, LoadCounterBin, 1, e.enableDeDupe);
        GrownTransitive(s, s1, inner);
      } else {
        SameMetaGrown(s, inner);
      }
      GrownTransitive(s, inner, t);
    } else {
      SameMetaGrown(s, t);
    }
  }

  /** A reload moves no pointer back, whatever fails. */
  lemma ReloadGrows(e: Settings, s: Store, id: string, value: Payload, draw: int, fault: Fault)
    requires ValidDraw(e, draw)
    ensures PointersGrown(s, ReloadOp(e, s, id, value, draw, fault).0)
  {
    var t := ReloadOp(e, s, id, value, draw, fault).0;
    if TypeAccepted(e, value) {
      var l := LockId(id, value.text);
      var s1 := if e.enableDeDupe then AcquireLock(s, l).0 else s;
      SameMetaGrown(s, s1);
      var inner := ReloadLocked(e, s, id, value, SelectShard(e, draw), fault, l).0;
      assert t == ReleasedLock(inner, l);
      SameMetaGrown(inner, t);
      if inner.meta != s.meta {
        assert inner == Append(e, s1, id, value, SelectShard(e, draw), fault, l, FireCounterBin, -1, false).0;
        AppendGrows(e, s1, id, value, SelectShard(e, draw), fault, l, FireCounterBin, -1, false);
        GrownTransitive(s, s1, inner);
      } else {
        SameMetaGrown(s, inner);
      }
      GrownTransitive(s, inner, t);
    } else {
      SameMetaGrown(s, t);
    }
  }

  /** A call that ends without changing any pointer record moves no pointer back. */
  lemma SameMetaGrown(s: Store, t: Store)
    requires t.meta == s.meta
    ensures PointersGrown(s, t)
  {
    forall k
      ensures KeyGrown(s, t, k)
    {
      assert MetaRecord(s, k) == MetaRecord(t, k);
    }
  }

  /** One fire pass moves no pointer back. */
  lemma FireAttemptGrows(e: Settings, s: Store, id: string, r: Round)
    requires ValidRound(e, r)
    ensures PointersGrown(s, FireAttempt(e, s, id, r).0)
  {
    SameMetaGrown(s, s);
    match FireShard(e, id, r)
    case Threw(_) =>
    case Done(shard) =>
      match ReadMeta(s, PointerKey(id, shard), CallAt(r.fault, PointerRead))
      case Threw(_) =>
      case Done(None) =>
      case Done(Some(rec)) => FireFromGrows(e, s, id, shard, rec, r.fault);
  }

  /** Firing from a shard moves its fire pointer forward and no pointer back. */
  lemma FireFromGrows(e: Settings, s: Store, id: string, shard: Option<int>, rec: Bins, fault: Fault)
    ensures PointersGrown(s, FireFrom(e, s, id, shard, rec, fault).0)
  {
    SameMetaGrown(s, s);
    FireFromStores(e, s, id, shard, rec, fault);
    var s1 := OperateAdd(s, PointerKey(id, shard), FirePointerBin, 1, CallAt(fault, PointerUpdate)).0;
    AddGrows(s, PointerKey(id, shard), FirePointerBin, 1, CallAt(fault, PointerUpdate));
    FireCounterIsNoPointer();
    var s2 := OperateAdd(s1, CounterKey(id, shard), FireCounterBin, 1, CallAt(fault, CounterUpdate)).0;
    AddGrows(s1, CounterKey(id, shard), FireCounterBin, 1, CallAt(fault, CounterUpdate));
    GrownTransitive(s, s1, s2);
  }

  /** However many passes a fire takes, no pointer moves back. */
  lemma {:induction false} FireRoundsGrow(e: Settings, s: Store, id: string, rounds: seq<Round>)
    requires ValidRounds(e, rounds)
    ensures PointersGrown(s, FireRounds(e, s, id, rounds).0)
    decreases |rounds|
  {
    if |rounds| == 0 {
      SameMetaGrown(s, s);
    } else {
      assert ValidRound(e, rounds[0]);
      var (s1, shot) := FireAttempt(e, s, id, rounds[0]);
      FireAttemptGrows(e, s, id, rounds[0]);
      if shot.NotYet? {
        assert ValidRounds(e, rounds[1..]) by {
          forall i | 0 <= i < |rounds| - 1
            ensures ValidRound(e, rounds[1..][i])
          {
            assert rounds[1..][i] == rounds[i + 1];
          }
        }
        FireRoundsGrow(e, s1, id, rounds[1..]);
        assert FireRounds(e, s, id, rounds).0 == FireRounds(e, s1, id, rounds[1..]).0;
        GrownTransitive(s, s1, FireRounds(e, s1, id, rounds[1..]).0);
      } else {
        assert FireRounds(e, s, id, rounds).0 == s1;
      }
    }
  }

  /** Every call moves no pointer back. */
  lemma ApplyGrows(e: Settings, s: Store, id: string, op: Op)
    requires ValidOp(e, op)
    ensures PointersGrown(s, Apply(e, s, id, op))
  {
    match op
    case LoadCall(value, draw, fault) => LoadGrows(e, s, id, value, draw, fault);
    case ReloadCall(value, draw, fault) => ReloadGrows(e, s, id, value, draw, fault);
    case FireCall(rounds) => FireRoundsGrow(e, s, id, rounds);
    case DeleteCall(item, fault) => SameMetaGrown(s, Apply(e, s, id, op));
  }

  /**
    Any sequence of loads, reloads, fires and deletes, with any failures, leaves every
    shard's load pointer and fire pointer at least where they were: positions are never
    handed out twice and an item once fired is never fired again from the same slot.
   */
  lemma {:induction false} RunPointersNeverDecrease(e: Settings, s: Store, id: string, ops: seq<Op>)
    requires forall i :: 0 <= i < |ops| ==> ValidOp(e, ops[i])
    ensures forall shard ::
              && ShardMeta(s, id, shard).loadPointer <= ShardMeta(Run(e, s, id, ops), id, shard).loadPointer
              && ShardMeta(s, id, shard).firePointer <= ShardMeta(Run(e, s, id, ops), id, shard).firePointer
    decreases |ops|
  {
    if |ops| > 0 {
      var s1 := Apply(e, s, id, ops[0]);
      ApplyGrows(e, s, id, ops[0]);
      RunPointersNeverDecrease(e, s1, id, ops[1..]);
      forall shard
        ensures ShardMeta(s, id, shard).loadPointer <= ShardMeta(s1, id, shard).loadPointer
        ensures ShardMeta(s, id, shard).firePointer <= ShardMeta(s1, id, shard).firePointer
      {
        assert KeyGrown(s, s1, PointerKey(id, shard));
      }
    }
  }
}
