/**
  The key-value store the engine runs against, and the outcome of each store call.

  The store holds the meta set (pointer, counter and SHARDS records, each a map from
  bin name to number), the data set (one payload per queue position), the dedupe
  markers (existence only) and the ids of the locks the lock manager holds.

  Every store call goes through the bounded retryer, which the model collapses into
  the call's outcome: it goes through; every attempt fails with a client error until
  the retryer gives up (`RetryException`); or something else goes wrong inside the
  call and the retryer wraps it (`ExecutionException`). An add-and-get may also come
  back without a record.
 */
module Kv {
  import opened Wrappers
  import opened Errors
  import opened Records

  /** A record of the meta set: bin name to value. */
  type Bins = map<string, int>

  datatype Store = Store(
    meta: map<string, Bins>,
    data: map<string, Payload>,
    markers: set<string>,
    locks: set<string>)

  /** `Record.getLong` / `getInt`: a bin the record does not hold reads as 0. */
  function BinValue(rec: Bins, bin: string): int
  {
    if bin in rec then rec[bin] else 0
  }

  /** A meta record, with an absent one read as a record without bins. */
  function MetaRecord(s: Store, key: string): Bins
  {
    if key in s.meta then s.meta[key] else map[]
  }

  /** The store calls of the engine's operations, by what they do. */
  datatype Step =
    | DeDupeCheck       // exists on the dedupe marker
    | PointerUpdate     // add-and-get on a pointer bin
    | DataWrite         // put of a data record
    | CounterUpdate     // add-and-get on a counter bin
    | MarkerWrite       // put of the dedupe marker
    | PointerRead       // get of the pointer record
    | DataRead          // get of a data record
    | CounterBatchRead  // batch get of the counter records
    | PointerBatchRead  // batch get of the pointer records
    | DataBatchRead     // batch get of data records
    | DataDelete        // delete of a data record
    | ShardsRead        // get of the SHARDS record
    | ShardsWrite       // put of the SHARDS record
    | ActiveShardsLoad  // the active-shard cache loading its entry through the metadata read

  datatype Failure = AttemptsExhausted | ExecutionFailure | NoRecord

  /**
    Which store call of an operation fails, if any. One failure point is enough: the
    first failing call ends the operation.
   */
  datatype Fault = NoFault | FaultAt(step: Step, failure: Failure)

  /** The outcome of one store call. `Absent` only affects add-and-get. */
  datatype Call = Proceed | Exhausted | Failed | Absent

  function CallAt(fault: Fault, step: Step): Call
  {
    if fault.NoFault? || fault.step != step then Proceed
    else match fault.failure
      case AttemptsExhausted => Exhausted
      case ExecutionFailure => Failed
      case NoRecord => Absent
  }

  /** The exception the bounded retryer throws for a failed call. */
  function RetryerError(call: Call): Throwable
  {
    if call.Exhausted? then Retry else Execution(Other("RuntimeException", None))
  }

  datatype Try<+T> = Done(value: T) | Threw(ex: Throwable)

  function Fails(call: Call): bool
  {
    call.Exhausted? || call.Failed?
  }

  /** `operate(add(bin, delta), get(bin))` on a meta record, creating it when absent. */
  function OperateAdd(s: Store, key: string, bin: string, delta: int, call: Call): (Store, Try<Option<int>>)
  {
    if Fails(call) then (s, Threw(RetryerError(call)))
    else if call.Absent? then (s, Done(None))
    else
      var rec := MetaRecord(s, key);
      var v := BinValue(rec, bin) + delta;
      (s.(meta := s.meta[key := rec[bin := v]]), Done(Some(v)))
  }

  /** An add-and-get either leaves the store as it was or sets the one bin it adds to. */
  lemma AddShape(s: Store, key: string, bin: string, delta: int, call: Call)
    ensures var t := OperateAdd(s, key, bin, delta, call).0;
            var rec := MetaRecord(s, key);
            t == s || t == s.(meta := s.meta[key := rec[bin := BinValue(rec, bin) + delta]])
  {
  }

  /** `get` of a meta record. */
  function ReadMeta(s: Store, key: string, call: Call): Try<Option<Bins>>
  {
    if Fails(call) then Threw(RetryerError(call))
    else Done(if key in s.meta then Some(s.meta[key]) else None)
  }

  /** `put` of bins into a meta record (existing bins of the record are kept). */
  function WriteMeta(s: Store, key: string, bins: Bins, call: Call): (Store, Try<()>)
  {
    if Fails(call) then (s, Threw(RetryerError(call)))
    else (s.(meta := s.meta[key := MetaRecord(s, key) + bins]), Done(()))
  }

  /** Batch `get` of meta records, one result per key, None for a missing record. */
  function ReadMetaBatch(s: Store, keys: seq<string>, call: Call): (r: Try<seq<Option<Bins>>>)
    ensures r.Done? ==> |r.value| == |keys|
  {
    if Fails(call) then Threw(RetryerError(call))
    else Done(seq(|keys|, i requires 0 <= i < |keys| => if keys[i] in s.meta then Some(s.meta[keys[i]]) else None))
  }

  /** `get` of a data record. */
  function ReadData(s: Store, key: string, call: Call): Try<Option<Payload>>
  {
    if Fails(call) then Threw(RetryerError(call))
    else Done(if key in s.data then Some(s.data[key]) else None)
  }

  /** Batch `get` of data records: the requested keys that hold a record, with their payloads. */
  function ReadDataBatch(s: Store, keys: set<string>, call: Call): Try<map<string, Payload>>
  {
    if Fails(call) then Threw(RetryerError(call))
    else Done(map k | k in keys && k in s.data :: s.data[k])
  }

  /** `put` of a data record: it replaces whatever the key held. */
  function WriteData(s: Store, key: string, value: Payload, call: Call): (Store, Try<()>)
  {
    if Fails(call) then (s, Threw(RetryerError(call)))
    else (s.(data := s.data[key := value]), Done(()))
  }

  /** `delete` of a data record. */
  function RemoveData(s: Store, key: string, call: Call): (Store, Try<()>)
  {
    if Fails(call) then (s, Threw(RetryerError(call)))
    else (s.(data := s.data - {key}), Done(()))
  }

  /** `exists` on a dedupe marker. */
  function HasMarker(s: Store, key: string, call: Call): Try<bool>
  {
    if Fails(call) then Threw(RetryerError(call))
    else Done(key in s.markers)
  }

  /** `put` of a dedupe marker. */
  function WriteMarker(s: Store, key: string, call: Call): (Store, Try<()>)
  {
    if Fails(call) then (s, Threw(RetryerError(call)))
    else (s.(markers := s.markers + {key}), Done(()))
  }

  /** `tryAcquireLock`: fails with LOCK_UNAVAILABLE while the id is held. */
  function AcquireLock(s: Store, lockId: string): (Store, Try<()>)
  {
    if lockId in s.locks then (s, Threw(Dlm(LockUnavailable)))
    else (s.(locks := s.locks + {lockId}), Done(()))
  }

  /** `releaseLock`: the id is no longer held. */
  function ReleasedLock(s: Store, lockId: string): Store
  {
    s.(locks := s.locks - {lockId})
  }

  /** The store client: the records it holds are updated in place by each call. */
  class KvClient {
    var meta: map<string, Bins>
    var data: map<string, Payload>
    var markers: set<string>
    var locks: set<string>

    function State(): Store
      reads this
    {
      Store(meta, data, markers, locks)
    }

    constructor(s: Store)
      ensures State() == s
    {
      meta := s.meta;
      data := s.data;
      markers := s.markers;
      locks := s.locks;
    }

    method Operate(key: string, bin: string, delta: int, call: Call) returns (r: Try<Option<int>>)
      modifies this
      ensures (State(), r) == OperateAdd(old(State()), key, bin, delta, call)
    {
      if Fails(call) {
        r := Threw(RetryerError(call));
      } else if call.Absent? {
        r := Done(None);
      } else {
        var rec := if key in meta then meta[key] else map[];
        var v := BinValue(rec, bin) + delta;
        meta := meta[key := rec[bin := v]];
        r := Done(Some(v));
      }
    }

    method GetMeta(key: string, call: Call) returns (r: Try<Option<Bins>>)
      ensures r == ReadMeta(State(), key, call)
    {
      if Fails(call) {
        r := Threw(RetryerError(call));
      } else if key in meta {
        r := Done(Some(meta[key]));
      } else {
        r := Done(None);
      }
    }

    method PutMeta(key: string, bins: Bins, call: Call) returns (r: Try<()>)
      modifies this
      ensures (State(), r) == WriteMeta(old(State()), key, bins, call)
    {
      if Fails(call) {
        r := Threw(RetryerError(call));
      } else {
        var rec := if key in meta then meta[key] else map[];
        meta := meta[key := rec + bins];
        r := Done(());
      }
    }

    method GetMetaBatch(keys: seq<string>, call: Call) returns (r: Try<seq<Option<Bins>>>)
      ensures r == ReadMetaBatch(State(), keys, call)
    {
      if Fails(call) {
        r := Threw(RetryerError(call));
        return;
      }
      var m := meta;
      var records: seq<Option<Bins>> := [];
      for i := 0 to |keys|
        invariant |records| == i
        invariant forall j :: 0 <= j < i ==> records[j] == if keys[j] in m then Some(m[keys[j]]) else None
      {
        records := records + [if keys[i] in m then Some(m[keys[i]]) else None];
      }
      assert records == seq(|keys|, i requires 0 <= i < |keys| => if keys[i] in m then Some(m[keys[i]]) else None);
      r := Done(records);
    }

    method Get(key: string, call: Call) returns (r: Try<Option<Payload>>)
      ensures r == ReadData(State(), key, call)
    {
      if Fails(call) {
        r := Threw(RetryerError(call));
      } else if key in data {
        r := Done(Some(data[key]));
      } else {
        r := Done(None);
      }
    }

    method GetBatch(keys: set<string>, call: Call) returns (r: Try<map<string, Payload>>)
      ensures r == ReadDataBatch(State(), keys, call)
    {
      if Fails(call) {
        r := Threw(RetryerError(call));
      } else {
        r := Done(map k | k in keys && k in data :: data[k]);
      }
    }

    method Put(key: string, value: Payload, call: Call) returns (r: Try<()>)
      modifies this
      ensures (State(), r) == WriteData(old(State()), key, value, call)
    {
      if Fails(call) {
        r := Threw(RetryerError(call));
      } else {
        data := data[key := value];
        r := Done(());
      }
    }

    method Delete(key: string, call: Call) returns (r: Try<()>)
      modifies this
      ensures (State(), r) == RemoveData(old(State()), key, call)
    {
      if Fails(call) {
        r := Threw(RetryerError(call));
      } else {
        data := data - {key};
        r := Done(());
      }
    }

    method Exists(key: string, call: Call) returns (r: Try<bool>)
      ensures r == HasMarker(State(), key, call)
    {
      if Fails(call) {
        r := Threw(RetryerError(call));
      } else {
        r := Done(key in markers);
      }
    }

    method PutMarker(key: string, call: Call) returns (r: Try<()>)
      modifies this
      ensures (State(), r) == WriteMarker(old(State()), key, call)
    {
      if Fails(call) {
        r := Threw(RetryerError(call));
      } else {
        markers := markers + {key};
        r := Done(());
      }
    }

    method TryAcquireLock(lockId: string) returns (r: Try<()>)
      modifies this
      ensures (State(), r) == AcquireLock(old(State()), lockId)
    {
      if lockId in locks {
        r := Threw(Dlm(LockUnavailable));
      } else {
        locks := locks + {lockId};
        r := Done(());
      }
    }

    method ReleaseLock(lockId: string)
      modifies this
      ensures State() == ReleasedLock(old(State()), lockId)
    {
      locks := locks - {lockId};
    }
  }
}
