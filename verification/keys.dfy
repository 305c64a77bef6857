/**
  Record keys and labels: the constants of the library, the engine's key builder
  `createKey`, the shard labels of the metadata map and the fire path's label parser,
  the lock id, and the dedupe marker key (as written, and corrected).
 */
module Keys {
  import opened Wrappers
  import opened Text

  // Bin names and key parts.
  const DataBin: string := "data"
  const ModifiedAtBin: string := "modified_at"
  const Pointers: string := "POINTERS"
  const Counters: string := "COUNTERS"
  const LoadCounterBin: string := "LOAD_COUNTER"
  const FireCounterBin: string := "FIRE_COUNTER"
  const LoadPointerBin: string := "LOAD_POINTER"
  const FirePointerBin: string := "FIRE_POINTER"
  const KeyDelimiter: string := "_"
  const Delimiter: char := '_'
  const ShardPrefix: string := "SHARD"
  const ShardsBin: string := "SHARDS"

  // Numeric settings.
  const DefaultRefresh: int := 5
  const DefaultMaxElements: int := 1024
  const MaxRetries: int := 5
  const DelayBetweenRetries: int := 10
  const MinShards: int := 1
  const ShardsDefaultTtl: int := 60 * 60 * 24 * 365

  /**
    `createKey(id, shard, suffix)`: `id_SHARD_<shard>_suffix` for a shard, `id_suffix`
    without one (the unsharded layout).
   */
  function CreateKey(id: string, shard: Option<int>, suffix: string): (k: string)
    ensures shard.Some? ==> k == id + KeyDelimiter + ShardPrefix + KeyDelimiter + IntToString(shard.value) + KeyDelimiter + suffix
    ensures shard.None? ==> k == id + KeyDelimiter + suffix
  {
    if shard.Some? then
      JoinFour(KeyDelimiter, id, ShardPrefix, IntToString(shard.value), suffix);
      Join(KeyDelimiter, [id, ShardPrefix, IntToString(shard.value), suffix])
    else
      JoinTwo(KeyDelimiter, id, suffix);
      Join(KeyDelimiter, [id, suffix])
  }

  /** The data record of a queue position. */
  function DataKey(id: string, shard: Option<int>, position: int): string
  {
    CreateKey(id, shard, IntToString(position))
  }

  /** The pointer record (LOAD_POINTER, FIRE_POINTER) of a shard. */
  function PointerKey(id: string, shard: Option<int>): string
  {
    CreateKey(id, shard, Pointers)
  }

  /** The counter record (LOAD_COUNTER, FIRE_COUNTER) of a shard. */
  function CounterKey(id: string, shard: Option<int>): string
  {
    CreateKey(id, shard, Counters)
  }

  /** The record holding the shard count a magazine was first created with. */
  function ShardsKey(id: string): string
  {
    Join(KeyDelimiter, [id, ShardsBin])
  }

  /** The key under which `getMetaData` reports a shard: `SHARD_<i>`. */
  function ShardLabel(i: int): (l: string)
    ensures l == ShardPrefix + KeyDelimiter + IntToString(i)
  {
    JoinTwo(KeyDelimiter, ShardPrefix, IntToString(i));
    Join(KeyDelimiter, [ShardPrefix, IntToString(i)])
  }

  /**
    The fire path's reading of an active-shard label: `Integer.parseInt(label.split("_")[1])`.
    None stands for the exception a label without a second field or with a non-numeric
    one raises.
   */
  function ShardOfLabel(tag: string): (n: Option<int>)
    ensures n.Some? ==> IntMin <= n.value <= IntMax
    ensures |Split(tag, Delimiter)| < 2 ==> n.None?
  {
    var fields := Split(tag, Delimiter);
    if |fields| < 2 then None else ParseInt(fields[1])
  }

  /** The id of the lock `load` and `reload` take: `id_<data>`. */
  function LockId(id: string, text: string): (l: string)
    ensures l == id + KeyDelimiter + text
  {
    JoinTwo(KeyDelimiter, id, text);
    Join(KeyDelimiter, [id, text])
  }

  /** The dedupe marker key as the engine builds it: identifier and data text, back to back. */
  function DeDupeKeyAsWritten(id: string, text: string): (k: string)
    ensures |k| == |id| + |text| && k[..|id|] == id && k[|id|..] == text
  {
    id + text
  }

  /**
    The dedupe marker key the engine evidently needs: one that tells the identifier
    and the data apart. The identifier's length comes first, so the split point is
    recoverable.
   */
  function DeDupeKey(id: string, text: string): (k: string)
    ensures |k| > |id| + |text|
    ensures k[|k| - |text| - |id|..] == id + text
  {
    NatToString(|id|) + KeyDelimiter + id + text
  }

  /** Which marker key a storage builds: the engine's concatenation, or the length-prefixed key. */
  datatype MarkerScheme = AsWritten | LengthPrefixed

  /** The dedupe marker key of a (magazine, data) pair under a scheme. */
  function MarkerKey(scheme: MarkerScheme, id: string, text: string): string
  {
    match scheme
    case AsWritten => DeDupeKeyAsWritten(id, text)
    case LengthPrefixed => DeDupeKey(id, text)
  }

  lemma DigitsHaveNoDelimiter(s: string)
    requires AllDigits(s)
    ensures Delimiter !in s
  {
    forall i | 0 <= i < |s|
      ensures s[i] != Delimiter
    {
      assert IsDigit(s[i]);
    }
  }

  /**
    Within one magazine and one shard layout, createKey is injective: equal keys
    mean the same shard and the same suffix, whatever the identifier holds.
   */
  lemma CreateKeySameId(id: string, s1: Option<int>, x1: string, s2: Option<int>, x2: string)
    requires s1.Some? == s2.Some?
    ensures CreateKey(id, s1, x1) == CreateKey(id, s2, x2) <==> s1 == s2 && x1 == x2
  {
    if CreateKey(id, s1, x1) == CreateKey(id, s2, x2) {
      if s1.Some? {
        var n1 := IntToString(s1.value);
        var n2 := IntToString(s2.value);
        var p := id + KeyDelimiter + ShardPrefix + KeyDelimiter;
        assert CreateKey(id, s1, x1) == p + (n1 + [Delimiter] + x1);
        assert CreateKey(id, s2, x2) == p + (n2 + [Delimiter] + x2);
        PrefixCancel(p, n1 + [Delimiter] + x1, n2 + [Delimiter] + x2);
        SplitAtDelimiter(n1, x1, n2, x2, Delimiter);
        IntToStringInjective(s1.value, s2.value);
      } else {
        assert CreateKey(id, s1, x1) == (id + KeyDelimiter) + x1;
        assert CreateKey(id, s2, x2) == (id + KeyDelimiter) + x2;
        PrefixCancel(id + KeyDelimiter, x1, x2);
      }
    }
  }

  /** Distinct positions of one shard have distinct data keys. */
  lemma DataKeyInjective(id: string, s1: Option<int>, p1: int, s2: Option<int>, p2: int)
    requires s1.Some? == s2.Some?
    ensures DataKey(id, s1, p1) == DataKey(id, s2, p2) <==> s1 == s2 && p1 == p2
  {
    CreateKeySameId(id, s1, IntToString(p1), s2, IntToString(p2));
    IntToStringInjective(p1, p2);
  }

  /**
    Across magazines, keys are told apart as long as identifiers and suffixes hold no
    delimiter: equal keys mean equal identifier, shard and suffix.
   */
  lemma CreateKeyInjective(id1: string, s1: Option<int>, x1: string, id2: string, s2: Option<int>, x2: string)
    requires Delimiter !in id1 && Delimiter !in id2 && Delimiter !in x1 && Delimiter !in x2
    ensures CreateKey(id1, s1, x1) == CreateKey(id2, s2, x2) <==> id1 == id2 && s1 == s2 && x1 == x2
  {
    var k1 := CreateKey(id1, s1, x1);
    var k2 := CreateKey(id2, s2, x2);
    var r1 := if s1.Some? then ShardPrefix + KeyDelimiter + IntToString(s1.value) + KeyDelimiter + x1 else x1;
    var r2 := if s2.Some? then ShardPrefix + KeyDelimiter + IntToString(s2.value) + KeyDelimiter + x2 else x2;
    assert k1 == id1 + [Delimiter] + r1;
    assert k2 == id2 + [Delimiter] + r2;
    if k1 == k2 {
      SplitAtDelimiter(id1, r1, id2, r2, Delimiter);
      // A sharded key carries a delimiter after SHARD, an unsharded suffix none.
      if s1.Some? { assert r1[|ShardPrefix|] == Delimiter; }
      if s2.Some? { assert r2[|ShardPrefix|] == Delimiter; }
      CreateKeySameId(id1, s1, x1, s2, x2);
    }
  }

  /** Every shard of a magazine has its own label. */
  lemma ShardLabelInjective(i: int, j: int)
    ensures ShardLabel(i) == ShardLabel(j) <==> i == j
  {
    if ShardLabel(i) == ShardLabel(j) {
      assert ShardLabel(i) == (ShardPrefix + KeyDelimiter) + IntToString(i);
      assert ShardLabel(j) == (ShardPrefix + KeyDelimiter) + IntToString(j);
      PrefixCancel(ShardPrefix + KeyDelimiter, IntToString(i), IntToString(j));
      IntToStringInjective(i, j);
    }
  }

  /** The fire path reads back the shard number every label `getMetaData` produces. */
  lemma ShardOfShardLabel(i: Int32)
    ensures ShardOfLabel(ShardLabel(i)) == Some(i as int)
  {
    var n := IntToString(i);
    assert ShardLabel(i) == ShardPrefix + [Delimiter] + n;
    assert Delimiter !in ShardPrefix;
    SplitPair(ShardPrefix, Delimiter, n);
    ParseIntOfIntToString(i);
  }

  /**
    The marker key as written lets two magazines share a marker: loading "B1" into
    magazine "A" marks the same key as loading "1" into magazine "AB".
   */
  lemma DeDupeKeyAsWrittenCollides()
    ensures "A" != "AB" && DeDupeKeyAsWritten("A", "B1") == DeDupeKeyAsWritten("AB", "1")
  {
  }

  /** The corrected marker key is injective: one marker per (magazine, data text). */
  lemma DeDupeKeyInjective(id1: string, t1: string, id2: string, t2: string)
    ensures DeDupeKey(id1, t1) == DeDupeKey(id2, t2) <==> id1 == id2 && t1 == t2
  {
    var l1 := NatToString(|id1|);
    var l2 := NatToString(|id2|);
    DigitsHaveNoDelimiter(l1);
    DigitsHaveNoDelimiter(l2);
    assert DeDupeKey(id1, t1) == l1 + [Delimiter] + (id1 + t1);
    assert DeDupeKey(id2, t2) == l2 + [Delimiter] + (id2 + t2);
    if DeDupeKey(id1, t1) == DeDupeKey(id2, t2) {
      SplitAtDelimiter(l1, id1 + t1, l2, id2 + t2, Delimiter);
      NatToStringInjective(|id1|, |id2|);
      assert id1 == (id1 + t1)[..|id1|];
      assert id2 == (id2 + t2)[..|id2|];
      assert t1 == (id1 + t1)[|id1|..];
      assert t2 == (id2 + t2)[|id2|..];
    }
  }
}
