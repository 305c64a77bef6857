/**
  What the dedupe markers make of two loads in a row. The engine builds a marker key by
  concatenating the magazine identifier and the data's text, so loads into different
  magazines can suppress one another; the length-prefixed key keeps every (magazine,
  data) pair apart.
 */
module DedupeLemmas {
  import opened Wrappers
  import opened Errors
  import opened Keys
  import opened Records
  import opened Kv
  import opened Protocol
  import opened QueueLemmas
  import opened OrderLemmas

  /**
    With the engine's marker keys, a first load whose identifier and data concatenate to
    the same text as a second load's makes the second load return true and store nothing,
    though it is for another magazine or other data.
   */
  lemma AsWrittenMarkerSuppressesLoad(e: Settings, s: Store, id1: string, v1: Payload, d1: int,
                                      id2: string, v2: Payload, d2: int)
    requires e.scheme == AsWritten && e.enableDeDupe
    requires ValidDraw(e, d1) && ValidDraw(e, d2) && TypeAccepted(e, v1) && TypeAccepted(e, v2)
    requires id1 + v1.text == id2 + v2.text
    requires LockId(id1, v1.text) !in s.locks && LockId(id2, v2.text) !in s.locks
    requires MarkerKey(e.scheme, id1, v1.text) !in s.markers
    requires PointersOrdered(s)
    ensures var t := LoadOp(e, s, id1, v1, d1, NoFault).0;
            LoadOp(e, t, id2, v2, d2, NoFault) == (t, Ok(true))
  {
    OrderedShard(s, id1, SelectShard(e, d1));
    LoadAppends(e, s, id1, v1, d1);
    var t := LoadOp(e, s, id1, v1, d1, NoFault).0;
    assert MarkerKey(e.scheme, id2, v2.text) in t.markers;
    DuplicateLoadChangesNothing(e, t, id2, v2, d2, NoFault);
  }

  /**
    The collision itself: after "B1" is loaded into magazine "A", loading "1" into magazine
    "AB" returns true and leaves every record as it was, so "1" never enters "AB"'s queue.
   */
  lemma CollidingLoadIsDropped(e: Settings, s: Store, v1: Payload, d1: int, v2: Payload, d2: int)
    requires e.scheme == AsWritten && e.enableDeDupe
    requires ValidDraw(e, d1) && ValidDraw(e, d2) && TypeAccepted(e, v1) && TypeAccepted(e, v2)
    requires v1.text == "B1" && v2.text == "1"
    requires LockId("A", "B1") !in s.locks && LockId("AB", "1") !in s.locks
    requires MarkerKey(e.scheme, "A", "B1") !in s.markers
    requires PointersOrdered(s)
    ensures var t := LoadOp(e, s, "A", v1, d1, NoFault).0;
            var (u, r) := LoadOp(e, t, "AB", v2, d2, NoFault);
            && r == Ok(true) && u == t
            && Pending(u, "AB", SelectShard(e, d2)) == Pending(t, "AB", SelectShard(e, d2))
  {
    assert "A" + "B1" == "AB" + "1";
    AsWrittenMarkerSuppressesLoad(e, s, "A", v1, d1, "AB", v2, d2);
  }

  /**
    With length-prefixed marker keys, a load for one (magazine, data) pair never keeps a
    load for another pair out: the second load still appends its item and returns true.
   */
  lemma LengthPrefixedLoadsIndependent(e: Settings, s: Store, id1: string, v1: Payload, d1: int,
                                       id2: string, v2: Payload, d2: int)
    requires e.scheme == LengthPrefixed
    requires ValidDraw(e, d1) && ValidDraw(e, d2) && TypeAccepted(e, v1) && TypeAccepted(e, v2)
    requires id1 != id2 || v1.text != v2.text
    requires e.enableDeDupe ==>
               && LockId(id1, v1.text) !in s.locks && LockId(id2, v2.text) !in s.locks
               && MarkerKey(e.scheme, id1, v1.text) !in s.markers && MarkerKey(e.scheme, id2, v2.text) !in s.markers
    requires PointersOrdered(s)
    ensures var t := LoadOp(e, s, id1, v1, d1, NoFault).0;
            var (u, r) := LoadOp(e, t, id2, v2, d2, NoFault);
            && r == Ok(true)
            && Pending(u, id2, SelectShard(e, d2)) == Pending(t, id2, SelectShard(e, d2)) + [Some(v2)]
  {
    OrderedShard(s, id1, SelectShard(e, d1));
    LoadAppends(e, s, id1, v1, d1);
    var t := LoadOp(e, s, id1, v1, d1, NoFault).0;
    LoadKeepsOrder(e, s, id1, v1, d1, NoFault);
    OrderedShard(t, id2, SelectShard(e, d2));
    DeDupeKeyInjective(id1, v1.text, id2, v2.text);
    LoadAppends(e, t, id2, v2, d2);
  }
}
