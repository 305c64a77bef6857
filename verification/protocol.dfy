/**
  What the Aerospike queue engine does to the store, operation by operation, as
  functions from the store before to the store after and the operation's outcome.

  A magazine keeps, per shard, a pointer record (LOAD_POINTER, FIRE_POINTER) and a
  counter record (LOAD_COUNTER, FIRE_COUNTER) in the meta set, and its items in the
  data set under `id[_SHARD_<i>]_<position>`. Loading appends at the position after
  the load pointer; firing takes the position after the fire pointer. A magazine with
  one shard uses the unsharded keys throughout.

  The random choices (the shard a load goes to, the active shard a fire picks), the
  fire cache's list of active shards and the failures of store calls are parameters.
 */
module Protocol {
  import opened Wrappers
  import opened Text
  import opened Errors
  import opened Keys
  import opened Records
  import opened Kv
  import opened BaseStorage

  /**
    The parts of a storage's configuration its operations depend on, and the way its
    dedupe marker keys are built (the engine builds them `AsWritten`).
   */
  datatype Settings = Settings(shards: ShardCount, enableDeDupe: bool, clazz: JClass, scheme: MarkerScheme)

  // The subjects of the engine's error messages.
  const ErrorLoadingData: string := "Error loading data"
  const ErrorGettingMetaData: string := "Error getting meta data"
  const ErrorFiringData: string := "Error firing data"
  const ErrorReadingPointers: string := "Error reading pointers"
  const ErrorReadingCounters: string := "Error reading counters"
  const NoDataToFire: string := "No data to fire"
  const ErrorDeletingData: string := "Error deleting data"
  const ErrorPeekingData: string := "Error peeking data"

  /** An error message naming the magazine: `<what> [magazineIdentifier = <id>]`. */
  function Describe(what: string, id: string): string
  {
    what + " [magazineIdentifier = " + id + "]"
  }

  const TypeMismatch: MagazineException :=
    MagazineException(DataTypeMismatch, "Mismatch in data type of magazine and requested data.", None)

  /** The exception thrown when an add-and-get comes back without a record. */
  function Unprepared(what: string, id: string): MagazineException
  {
    MagazineException(MagazineUnprepared, Describe(what, id), None)
  }

  /** What dereferencing a missing record throws. */
  const NullPointer: Throwable := Other("NullPointerException", None)

  /** What a failed `clazz.cast` throws. */
  const ClassCast: Throwable := Other("ClassCastException", None)

  /** What reading a shard number out of a malformed label throws. */
  const MalformedLabel: Throwable := Other("NumberFormatException", None)

  /**
    `handleException`: magazine errors, at the top or one level down, pass through;
    a lock that is held elsewhere becomes ACTION_DENIED_PARALLEL_ATTEMPT; a retryer
    that gave up becomes RETRIES_EXHAUSTED; an exception the retryer wrapped becomes
    CONNECTION_ERROR; anything else becomes INTERNAL_ERROR.
   */
  function HandleException(t: Throwable, what: string, id: string, lock: Option<string>): (ex: MagazineException)
    ensures t.Magazine? ==> ex == t.ex
    ensures t.Execution? && t.wrapped.Magazine? ==> ex == t.wrapped.ex
    ensures t.Dlm? && t.dlmCode == LockUnavailable ==>
              ex == MagazineException(ActionDeniedParallelAttempt,
                                      "Error acquiring lock - " + (if lock.Some? then lock.value else "null"),
                                      Some(t))
    ensures t.Dlm? && t.dlmCode != LockUnavailable ==> ex.code == InternalError
    ensures t.Retry? ==> ex == MagazineException(RetriesExhausted, Describe(what, id), Some(t))
    ensures t.Execution? && !t.wrapped.Magazine? ==> ex == MagazineException(ConnectionError, Describe(what, id), Some(t))
    ensures t.Other? && !CauseIsMagazine(t) ==> ex.code == InternalError && ex.cause == Some(t)
  {
    if t.Magazine? || CauseIsMagazine(t) then Propagate(t)
    else if t.Dlm? && t.dlmCode == LockUnavailable then
      MagazineException(ActionDeniedParallelAttempt,
                        "Error acquiring lock - " + (if lock.Some? then lock.value else "null"),
                        Some(t))
    else if t.Retry? then MagazineException(RetriesExhausted, Describe(what, id), Some(t))
    else if t.Execution? then MagazineException(ConnectionError, Describe(what, id), Some(t))
    else Propagate(t)
  }

  /** `validateDataType`: the data's class must be assignable from the magazine's class. */
  predicate TypeAccepted(e: Settings, value: Payload)
    ensures value.cls.name == e.clazz.name ==> TypeAccepted(e, value)
    ensures value.cls.name != e.clazz.name && e.clazz.name in value.cls.supertypes && value.cls.name !in e.clazz.supertypes ==>
              !TypeAccepted(e, value)
  {
    IsAssignableFrom(value.cls, e.clazz)
  }

  /** `random.nextInt(shards)` yields a draw in range. */
  predicate ValidDraw(e: Settings, draw: int)
  {
    e.shards > 1 ==> 0 <= draw < e.shards
  }

  /** `selectShard`: the drawn shard when sharded, none (the unsharded keys) otherwise. */
  function SelectShard(e: Settings, draw: int): (shard: Option<int>)
    ensures shard.Some? <==> e.shards > 1
    ensures shard.Some? ==> shard.value == draw
  {
    if e.shards > 1 then Some(draw) else None
  }

  /** The shard the keys of shard number i use: none when the magazine has one shard. */
  function ShardOf(e: Settings, i: int): Option<int>
  {
    if e.shards > 1 then Some(i) else None
  }

  /**
    The append both `load` and `reload` perform, on the selected shard: raise the load
    pointer, write the data at the new position, adjust a counter (LOAD_COUNTER + 1 for
    load, FIRE_COUNTER - 1 for reload) and, when asked, write the dedupe marker.
   */
  function Append(e: Settings, s: Store, id: string, value: Payload, shard: Option<int>, fault: Fault,
                  lockId: string, counterBin: string, counterDelta: int, marker: bool): (r: (Store, Result<bool, MagazineException>))
    ensures r.1.Ok? ==> r.1.value
    ensures r.0.locks == s.locks
    ensures r.0.markers == if marker && r.1.Ok? then s.markers + {MarkerKey(e.scheme, id, value.text)} else s.markers
  {
    var (s1, loaded) := OperateAdd(s, PointerKey(id, shard), LoadPointerBin, 1, CallAt(fault, PointerUpdate));
    match loaded
    case Threw(t) => (s1, Err(HandleException(t, ErrorLoadingData, id, Some(lockId))))
    case Done(None) =>
      (s1, Err(HandleException(Magazine(Unprepared(ErrorReadingPointers, id)), ErrorLoadingData, id, Some(lockId))))
    case Done(Some(position)) =>
      var (s2, written) := WriteData(s1, DataKey(id, shard, position), value, CallAt(fault, DataWrite));
      if written.Threw? then (s2, Err(HandleException(written.ex, ErrorLoadingData, id, Some(lockId))))
      else
        var (s3, counted) := OperateAdd(s2, CounterKey(id, shard), counterBin, counterDelta, CallAt(fault, CounterUpdate));
        match counted
        case Threw(t) => (s3, Err(HandleException(t, ErrorLoadingData, id, Some(lockId))))
        case Done(None) =>
          (s3, Err(HandleException(Magazine(Unprepared(ErrorReadingCounters, id)), ErrorLoadingData, id, Some(lockId))))
        case Done(Some(_)) =>
          if !marker then (s3, Ok(true))
          else
            var (s4, marked) := WriteMarker(s3, MarkerKey(e.scheme, id, value.text), CallAt(fault, MarkerWrite));
            if marked.Threw? then (s4, Err(HandleException(marked.ex, ErrorLoadingData, id, Some(lockId))))
            else (s4, Ok(true))
  }

  /** The part of `load` inside its try block: lock, dedupe check, append. */
  function LoadLocked(e: Settings, s: Store, id: string, value: Payload, shard: Option<int>, fault: Fault,
                      lockId: string): (r: (Store, Result<bool, MagazineException>))
    ensures r.1.Ok? ==> r.1.value
    ensures e.enableDeDupe && r.1.Ok? ==> MarkerKey(e.scheme, id, value.text) in r.0.markers
    ensures r.0.markers <= s.markers + {MarkerKey(e.scheme, id, value.text)}
    ensures !e.enableDeDupe ==> r.0.markers == s.markers && r.0.locks == s.locks
  {
    var (s1, acquired) := if e.enableDeDupe then AcquireLock(s, lockId) else (s, Done(()));
    if acquired.Threw? then (s1, Err(HandleException(acquired.ex, ErrorLoadingData, id, Some(lockId))))
    else if !e.enableDeDupe then Append(e, s1, id, value, shard, fault, lockId, LoadCounterBin, 1, false)
    else
      match HasMarker(s1, MarkerKey(e.scheme, id, value.text), CallAt(fault, DeDupeCheck))
      case Threw(t) => (s1, Err(HandleException(t, ErrorLoadingData, id, Some(lockId))))
      case Done(true) => (s1, Ok(true))
      case Done(false) => Append(e, s1, id, value, shard, fault, lockId, LoadCounterBin, 1, true)
  }

  /**
    `load`: the type check first, outside the try block; then the locked part, and the
    lock release of the finally block on every path out of it.
   */
  function LoadOp(e: Settings, s: Store, id: string, value: Payload, draw: int, fault: Fault): (r: (Store, Result<bool, MagazineException>))
    requires ValidDraw(e, draw)
    ensures r.1.Ok? ==> r.1.value
    ensures !TypeAccepted(e, value) ==> r.0 == s && r.1.Err? && r.1.error.code == DataTypeMismatch
    ensures TypeAccepted(e, value) ==> r.0.locks == s.locks - {LockId(id, value.text)}
    ensures e.enableDeDupe && r.1.Ok? ==> MarkerKey(e.scheme, id, value.text) in r.0.markers
    ensures r.0.markers <= s.markers + {MarkerKey(e.scheme, id, value.text)}
  {
    if !TypeAccepted(e, value) then (s, Err(TypeMismatch))
    else
      var lockId := LockId(id, value.text);
      var (s1, r) := LoadLocked(e, s, id, value, SelectShard(e, draw), fault, lockId);
      (ReleasedLock(s1, lockId), r)
  }

  /** The part of `reload` inside its try block: lock, then an append that lowers FIRE_COUNTER. */
  function ReloadLocked(e: Settings, s: Store, id: string, value: Payload, shard: Option<int>, fault: Fault,
                        lockId: string): (r: (Store, Result<bool, MagazineException>))
    ensures r.1.Ok? ==> r.1.value
    ensures r.0.markers == s.markers
    ensures !e.enableDeDupe ==> r.0.locks == s.locks
  {
    var (s1, acquired) := if e.enableDeDupe then AcquireLock(s, lockId) else (s, Done(()));
    if acquired.Threw? then (s1, Err(HandleException(acquired.ex, ErrorLoadingData, id, Some(lockId))))
    else Append(e, s1, id, value, shard, fault, lockId, FireCounterBin, -1, false)
  }

  /** `reload`: like `load`, without the dedupe check and the marker. */
  function ReloadOp(e: Settings, s: Store, id: string, value: Payload, draw: int, fault: Fault): (r: (Store, Result<bool, MagazineException>))
    requires ValidDraw(e, draw)
    ensures r.1.Ok? ==> r.1.value
    ensures !TypeAccepted(e, value) ==> r.0 == s && r.1.Err? && r.1.error.code == DataTypeMismatch
    ensures TypeAccepted(e, value) ==> r.0.locks == s.locks - {LockId(id, value.text)}
    ensures r.0.markers == s.markers
  {
    if !TypeAccepted(e, value) then (s, Err(TypeMismatch))
    else
      var lockId := LockId(id, value.text);
      var (s1, r) := ReloadLocked(e, s, id, value, SelectShard(e, draw), fault, lockId);
      (ReleasedLock(s1, lockId), r)
  }

  /**
    One pass of the fire retryer's callable: the active-shard labels the cache holds
    (possibly stale), the random pick among them, and which store call fails.
   */
  datatype Round = Round(active: seq<string>, pick: int, fault: Fault)

  /** `random.nextInt(activeShards.size())` yields a pick in range. */
  predicate ValidRound(e: Settings, r: Round)
  {
    e.shards > 1 && |r.active| > 0 ==> 0 <= r.pick < |r.active|
  }

  predicate ValidRounds(e: Settings, rounds: seq<Round>)
  {
    forall i :: 0 <= i < |rounds| ==> ValidRound(e, rounds[i])
  }

  /**
    `getRandomShardForFire`: when the cache has to load the entry and the metadata read
    fails, the future's `get` throws an ExecutionException around getMetaData's Magazine
    exception; NOTHING_TO_FIRE when the cache lists no active shard; otherwise the picked label's shard number when sharded, and none when the magazine
    has one shard, whatever label was picked.
   */
  function FireShard(e: Settings, id: string, r: Round): (picked: Try<Option<int>>)
    requires ValidRound(e, r)
    ensures picked.Done? ==> |r.active| > 0 && !Fails(CallAt(r.fault, ActiveShardsLoad))
    ensures picked.Done? ==> (picked.value.Some? <==> e.shards > 1)
    ensures picked.Threw? && picked.ex.Magazine? ==> picked.ex.ex.code == NothingToFire
  {
    var load := CallAt(r.fault, ActiveShardsLoad);
    if Fails(load) then Threw(Execution(Magazine(HandleException(RetryerError(load), ErrorGettingMetaData, id, None))))
    else if |r.active| == 0 then Threw(Magazine(MagazineException(NothingToFire, Describe(NoDataToFire, id), None)))
    else if e.shards <= 1 then Done(None)
    else
      match ShardOfLabel(r.active[r.pick])
      case None => Threw(MalformedLabel)
      case Some(n) => Done(Some(n))
  }

  /** What one pass of the fire callable returns or throws. */
  datatype Shot = Fired(item: MagazineData) | NotYet | Raised(ex: Throwable)

  /**
    What a fired item is: an item of magazine `id` whose data is what the store held at the
    item's own data key, and of the magazine's class.
   */
  predicate FiredFrom(e: Settings, s: Store, id: string, m: MagazineData)
  {
    && m.magazineIdentifier == id && CastSucceeds(e.clazz, m.data)
    && DataKey(id, m.shard, m.firePointer) in s.data && s.data[DataKey(id, m.shard, m.firePointer)] == m.data
  }

  /** After the pointer record was read: fire from `shard` when its fire pointer is behind. */
  function FireFrom(e: Settings, s: Store, id: string, shard: Option<int>, rec: Bins, fault: Fault): (r: (Store, Shot))
    ensures r.0.data == s.data && r.0.markers == s.markers && r.0.locks == s.locks
    ensures r.1.Fired? ==> FiredFrom(e, s, id, r.1.item) && r.1.item.shard == shard
  {
    if !(BinValue(rec, FirePointerBin) < BinValue(rec, LoadPointerBin)) then (s, NotYet)
    else
      var (s1, advanced) := OperateAdd(s, PointerKey(id, shard), FirePointerBin, 1, CallAt(fault, PointerUpdate));
      match advanced
      case Threw(t) => (s1, Raised(t))
      case Done(None) => (s1, Raised(NullPointer))
      case Done(Some(position)) =>
        match ReadData(s1, DataKey(id, shard, position), CallAt(fault, DataRead))
        case Threw(t) => (s1, Raised(t))
        case Done(None) => (s1, NotYet)
        case Done(Some(value)) =>
          if !CastSucceeds(e.clazz, value) then (s1, Raised(ClassCast))
          else
            var (s2, counted) := OperateAdd(s1, CounterKey(id, shard), FireCounterBin, 1, CallAt(fault, CounterUpdate));
            match counted
            case Threw(t) => (s2, Raised(t))
            case Done(None) => (s2, Raised(Magazine(Unprepared(ErrorReadingCounters, id))))
            case Done(Some(_)) => (s2, Fired(MagazineData(value, position, shard, id)))
  }

  /** One pass of the fire callable: pick a shard, read its pointers, fire from it. */
  function FireAttempt(e: Settings, s: Store, id: string, r: Round): (a: (Store, Shot))
    requires ValidRound(e, r)
    ensures a.0.data == s.data && a.0.markers == s.markers && a.0.locks == s.locks
    ensures a.1.Fired? ==> FiredFrom(e, s, id, a.1.item)
  {
    match FireShard(e, id, r)
    case Threw(t) => (s, Raised(t))
    case Done(shard) =>
      match ReadMeta(s, PointerKey(id, shard), CallAt(r.fault, PointerRead))
      case Threw(t) => (s, Raised(t))
      case Done(None) => (s, Raised(NullPointer))
      case Done(Some(rec)) => FireFrom(e, s, id, shard, rec, r.fault)
  }

  /** How `fire` ends after the given passes: an item, an exception, or still retrying. */
  datatype FireOutcome = FiredData(item: MagazineData) | FireFailed(ex: MagazineException) | StillRetrying

  /**
    `fireWithRetry`: the fire retryer repeats the callable while it returns null and
    never stops on its own; whatever the callable throws it wraps in an
    `ExecutionException` before `handleException` sees it.
   */
  function FireRounds(e: Settings, s: Store, id: string, rounds: seq<Round>): (r: (Store, FireOutcome))
    requires ValidRounds(e, rounds)
    ensures r.0.data == s.data && r.0.markers == s.markers && r.0.locks == s.locks
    ensures r.1.FiredData? ==> FiredFrom(e, s, id, r.1.item)
    decreases |rounds|
  {
    if |rounds| == 0 then (s, StillRetrying)
    else
      var (s1, shot) := FireAttempt(e, s, id, rounds[0]);
      match shot
      case Fired(m) => (s1, FiredData(m))
      case Raised(t) => (s1, FireFailed(HandleException(Execution(t), ErrorFiringData, id, None)))
      case NotYet => FireRounds(e, s1, id, rounds[1..])
  }

  /** `createMetaKeys`: one key per shard when sharded, the single unsharded key otherwise. */
  function MetaKeys(e: Settings, id: string, suffix: string): (keys: seq<string>)
    ensures |keys| >= e.shards
    ensures forall i :: 0 <= i < e.shards ==> keys[i] == CreateKey(id, ShardOf(e, i), suffix)
  {
    if e.shards > 1 then seq(e.shards, i requires 0 <= i < e.shards => CreateKey(id, Some(i), suffix))
    else [CreateKey(id, None, suffix)]
  }

  /** One shard's metadata from its counter and pointer records; a missing record reads as zeros. */
  function MetaDataOf(counters: Option<Bins>, pointers: Option<Bins>): MetaData
  {
    var c := if counters.Some? then counters.value else map[];
    var p := if pointers.Some? then pointers.value else map[];
    MetaData(BinValue(c, FireCounterBin), BinValue(c, LoadCounterBin),
             BinValue(p, FirePointerBin), BinValue(p, LoadPointerBin))
  }

  lemma ShardLabelsDistinct()
    ensures forall i, j :: ShardLabel(i) == ShardLabel(j) ==> i == j
  {
    forall i, j | ShardLabel(i) == ShardLabel(j)
      ensures i == j
    {
      ShardLabelInjective(i, j);
    }
  }

  /** `getMetaData`: two batch reads, then one entry per shard number, keyed `SHARD_<i>`. */
  function GetMetaDataOp(e: Settings, s: Store, id: string, fault: Fault): (r: Result<map<string, MetaData>, MagazineException>)
    ensures r.Ok? <==> !Fails(CallAt(fault, CounterBatchRead)) && !Fails(CallAt(fault, PointerBatchRead))
  {
    match ReadMetaBatch(s, MetaKeys(e, id, Counters), CallAt(fault, CounterBatchRead))
    case Threw(t) => Err(HandleException(t, ErrorGettingMetaData, id, None))
    case Done(counters) =>
      match ReadMetaBatch(s, MetaKeys(e, id, Pointers), CallAt(fault, PointerBatchRead))
      case Threw(t) => Err(HandleException(t, ErrorGettingMetaData, id, None))
      case Done(pointers) => Ok(MetaMap(e, counters, pointers))
  }

  /** The map `getMetaData` returns: shard i's counter and pointer records under the label `SHARD_<i>`. */
  function MetaMap(e: Settings, counters: seq<Option<Bins>>, pointers: seq<Option<Bins>>): (m: map<string, MetaData>)
    requires |counters| >= e.shards && |pointers| >= e.shards
    ensures forall i :: 0 <= i < e.shards ==> ShardLabel(i) in m
    ensures forall i :: 0 <= i < e.shards && counters[i].None? && pointers[i].None? ==> m[ShardLabel(i)] == MetaData(0, 0, 0, 0)
  {
    ShardLabelsDistinct();
    map i | 0 <= i < e.shards :: ShardLabel(i) := MetaDataOf(counters[i], pointers[i])
  }

  /** The data keys `buildKeyAndMagazineDataList` builds for a peek request. */
  function PeekKeys(id: string, request: map<Option<int>, set<int>>): (keys: set<string>)
    ensures forall shard, p :: shard in request && p in request[shard] ==> DataKey(id, shard, p) in keys
  {
    set shard, p | shard in request && p in request[shard] :: DataKey(id, shard, p)
  }

  /** The items of a peek: each requested position whose record the batch read found. */
  function PeekItems(id: string, request: map<Option<int>, set<int>>, found: map<string, Payload>): (items: set<MagazineData>)
    ensures forall m :: m in items ==>
              && m.magazineIdentifier == id && m.shard in request && m.firePointer in request[m.shard]
              && CreateAerospikeKey(m) in found && found[CreateAerospikeKey(m)] == m.data
  {
    set shard, p | shard in request && p in request[shard] && DataKey(id, shard, p) in found ::
      MagazineData(found[DataKey(id, shard, p)], p, shard, id)
  }

  /** `peek`: one batch read of the requested positions; every found record is cast to the magazine's class. */
  function PeekOp(e: Settings, s: Store, id: string, request: map<Option<int>, set<int>>, fault: Fault): (r: Result<set<MagazineData>, MagazineException>)
    ensures r.Ok? ==> forall m :: m in r.value ==>
              && m.magazineIdentifier == id && CastSucceeds(e.clazz, m.data)
              && CreateAerospikeKey(m) in s.data && s.data[CreateAerospikeKey(m)] == m.data
  {
    match ReadDataBatch(s, PeekKeys(id, request), CallAt(fault, DataBatchRead))
    case Threw(t) => Err(HandleException(t, ErrorPeekingData, id, None))
    case Done(found) =>
      var items := PeekItems(id, request, found);
      if exists m :: m in items && !CastSucceeds(e.clazz, m.data) then
        Err(HandleException(ClassCast, ErrorPeekingData, id, None))
      else Ok(items)
  }

  /** `delete`: remove the record at the item's key. */
  function DeleteOp(s: Store, m: MagazineData, fault: Fault): (r: (Store, Result<(), MagazineException>))
    ensures r.0.meta == s.meta && r.0.markers == s.markers && r.0.locks == s.locks
    ensures r.1.Ok? <==> !Fails(CallAt(fault, DataDelete))
    ensures r.1.Ok? ==> CreateAerospikeKey(m) !in r.0.data
  {
    var (s1, removed) := RemoveData(s, CreateAerospikeKey(m), CallAt(fault, DataDelete));
    if removed.Threw? then (s1, Err(HandleException(removed.ex, ErrorDeletingData, m.magazineIdentifier, None)))
    else (s1, Ok(()))
  }

  // ---- Views of the store used to state what the operations promise ----

  /** A shard's counters and pointers as the store holds them (missing records read as zeros). */
  function ShardMeta(s: Store, id: string, shard: Option<int>): MetaData
  {
    var c := MetaRecord(s, CounterKey(id, shard));
    var p := MetaRecord(s, PointerKey(id, shard));
    MetaData(BinValue(c, FireCounterBin), BinValue(c, LoadCounterBin),
             BinValue(p, FirePointerBin), BinValue(p, LoadPointerBin))
  }

  /** The data record at a position of a shard, if any. */
  function Slot(s: Store, id: string, shard: Option<int>, position: int): Option<Payload>
  {
    var k := DataKey(id, shard, position);
    if k in s.data then Some(s.data[k]) else None
  }

  /**
    The queue of a shard: the slots after the fire pointer up to the load pointer, in
    the order fire takes them (a slot whose record is gone reads as None).
   */
  function Pending(s: Store, id: string, shard: Option<int>): (q: seq<Option<Payload>>)
    ensures var m := ShardMeta(s, id, shard);
            |q| == if m.loadPointer > m.firePointer then m.loadPointer - m.firePointer else 0
  {
    var m := ShardMeta(s, id, shard);
    if m.loadPointer <= m.firePointer then []
    else seq(m.loadPointer - m.firePointer, i requires 0 <= i < m.loadPointer - m.firePointer =>
               Slot(s, id, shard, m.firePointer + 1 + i))
  }

  /** Every pointer record of the store has its fire pointer at or behind its load pointer. */
  predicate PointersOrdered(s: Store)
  {
    forall k :: k in s.meta ==> BinValue(s.meta[k], FirePointerBin) <= BinValue(s.meta[k], LoadPointerBin)
  }
}
