/**
  The string primitives the key builders rely on: `String.join`, decimal rendering of
  integers (`String.valueOf`, `%d`), `Integer.parseInt` and `String.split` with a
  one-character delimiter.
 */
module Text {
  import opened Wrappers

  const IntMin: int := -0x8000_0000
  const IntMax: int := 0x7fff_ffff

  /** A Java `int`. */
  type Int32 = x: int | IntMin <= x <= IntMax

  /** `String.join(delimiter, parts)`. */
  function Join(delimiter: string, parts: seq<string>): string
  {
    if |parts| == 0 then ""
    else if |parts| == 1 then parts[0]
    else parts[0] + delimiter + Join(delimiter, parts[1..])
  }

  lemma JoinTwo(delimiter: string, a: string, b: string)
    ensures Join(delimiter, [a, b]) == a + delimiter + b
  {
    assert [a, b][1..] == [b];
  }

  lemma JoinFour(delimiter: string, a: string, b: string, c: string, d: string)
    ensures Join(delimiter, [a, b, c, d]) == a + delimiter + b + delimiter + c + delimiter + d
  {
    assert [a, b, c, d][1..] == [b, c, d];
    assert [b, c, d][1..] == [c, d];
    JoinTwo(delimiter, c, d);
  }

  predicate IsDigit(ch: char) { '0' <= ch <= '9' }

  predicate AllDigits(s: string) { forall i :: 0 <= i < |s| ==> IsDigit(s[i]) }

  function DigitChar(d: nat): (ch: char)
    requires d < 10
    ensures IsDigit(ch)
  {
    ('0' as int + d) as char
  }

  function DigitValue(ch: char): nat
    requires IsDigit(ch)
  {
    ch as int - '0' as int
  }

  /** Decimal rendering of a non-negative number, most significant digit first, no leading zeros. */
  function NatToString(n: nat): (s: string)
    ensures 1 <= |s| && AllDigits(s)
    ensures n >= 10 <==> |s| > 1
  {
    if n < 10 then [DigitChar(n)] else NatToString(n / 10) + [DigitChar(n % 10)]
  }

  /** `String.valueOf(long)` / `%d`: a minus sign for negative numbers, then the digits. */
  function IntToString(i: int): (s: string)
    ensures 1 <= |s| && '_' !in s
    ensures s[0] == '-' <==> i < 0
  {
    if i < 0 then "-" + NatToString(-i) else NatToString(i)
  }

  /** The value of a string of decimal digits (the empty string reads as 0). */
  function DigitsValue(s: string): nat
    requires AllDigits(s)
  {
    if |s| == 0 then 0 else DigitsValue(s[..|s| - 1]) * 10 + DigitValue(s[|s| - 1])
  }

  lemma {:induction false} DigitsValueOfNatToString(n: nat)
    ensures DigitsValue(NatToString(n)) == n
  {
    if n >= 10 {
      var s := NatToString(n / 10) + [DigitChar(n % 10)];
      assert s[..|s| - 1] == NatToString(n / 10);
      DigitsValueOfNatToString(n / 10);
    }
  }

  lemma NatToStringInjective(a: nat, b: nat)
    ensures NatToString(a) == NatToString(b) ==> a == b
  {
    DigitsValueOfNatToString(a);
    DigitsValueOfNatToString(b);
  }

  lemma IntToStringInjective(a: int, b: int)
    ensures IntToString(a) == IntToString(b) ==> a == b
  {
    if IntToString(a) == IntToString(b) {
      if a < 0 && b < 0 {
        assert NatToString(-a) == IntToString(a)[1..];
        assert NatToString(-b) == IntToString(b)[1..];
        NatToStringInjective(-a, -b);
      } else if a >= 0 && b >= 0 {
        NatToStringInjective(a, b);
      }
    }
  }

  /**
    `Integer.parseInt(s)`: an optional sign followed by at least one ASCII digit, and a
    value that fits in an `int`; anything else is a `NumberFormatException` (None).
   */
  function ParseInt(s: string): (r: Option<int>)
    ensures r.Some? ==> IntMin <= r.value <= IntMax
  {
    if |s| == 0 then None
    else
      var digits := if s[0] == '-' || s[0] == '+' then s[1..] else s;
      if |digits| == 0 || !AllDigits(digits) then None
      else
        var v: int := if s[0] == '-' then -(DigitsValue(digits) as int) else DigitsValue(digits);
        if IntMin <= v <= IntMax then Some(v) else None
  }

  lemma ParseIntOfIntToString(i: Int32)
    ensures ParseInt(IntToString(i)) == Some(i)
  {
    var s := IntToString(i);
    if i < 0 {
      var n: nat := -(i as int);
      assert s[1..] == NatToString(n);
      DigitsValueOfNatToString(n);
    } else {
      DigitsValueOfNatToString(i);
    }
  }

  /** All fields of s between occurrences of the delimiter, empty fields included. */
  function Fields(s: string, delimiter: char): (r: seq<string>)
    ensures |r| >= 1
  {
    if |s| == 0 then [""]
    else
      var rest := Fields(s[1..], delimiter);
      if s[0] == delimiter then [""] + rest else [[s[0]] + rest[0]] + rest[1..]
  }

  function DropTrailingEmpty(r: seq<string>): seq<string>
  {
    if |r| > 0 && r[|r| - 1] == "" then DropTrailingEmpty(r[..|r| - 1]) else r
  }

  /**
    `s.split(d)` for a delimiter that is not a regular-expression metacharacter: the
    whole string when it holds no delimiter, otherwise the fields with trailing empty
    fields removed.
   */
  function Split(s: string, delimiter: char): seq<string>
  {
    if delimiter !in s then [s] else DropTrailingEmpty(Fields(s, delimiter))
  }

  lemma {:induction false} FieldsWithoutDelimiter(s: string, delimiter: char)
    requires delimiter !in s
    ensures Fields(s, delimiter) == [s]
  {
    if |s| > 0 {
      FieldsWithoutDelimiter(s[1..], delimiter);
      assert [s[0]] + s[1..] == s;
    }
  }

  lemma {:induction false} FieldsAtFirstDelimiter(a: string, delimiter: char, b: string)
    requires delimiter !in a
    ensures Fields(a + [delimiter] + b, delimiter) == [a] + Fields(b, delimiter)
  {
    if |a| == 0 {
      assert a + [delimiter] + b == [delimiter] + b;
      assert ([delimiter] + b)[1..] == b;
    } else {
      var s := a + [delimiter] + b;
      assert s[1..] == a[1..] + [delimiter] + b;
      FieldsAtFirstDelimiter(a[1..], delimiter, b);
      assert [a[0]] + a[1..] == a;
    }
  }

  /** Splitting `head + d + tail`, with no delimiter in either part, gives the two parts. */
  lemma SplitPair(head: string, delimiter: char, tail: string)
    requires delimiter !in head && delimiter !in tail && |tail| > 0
    ensures Split(head + [delimiter] + tail, delimiter) == [head, tail]
  {
    var s := head + [delimiter] + tail;
    assert s[|head|] == delimiter;
    FieldsAtFirstDelimiter(head, delimiter, tail);
    FieldsWithoutDelimiter(tail, delimiter);
  }

  lemma PrefixCancel(p: string, x: string, y: string)
    ensures p + x == p + y ==> x == y
  {
    if p + x == p + y {
      assert x == (p + x)[|p|..];
      assert y == (p + y)[|p|..];
    }
  }

  /** The position of the first occurrence of ch in s. */
  function FirstIndex(s: string, ch: char): (i: nat)
    requires ch in s
    ensures i < |s| && s[i] == ch && ch !in s[..i]
  {
    if s[0] == ch then 0 else 1 + FirstIndex(s[1..], ch)
  }

  lemma {:induction false} FirstIndexAfterPrefix(a: string, ch: char, b: string)
    requires ch !in a
    ensures ch in a + [ch] + b && FirstIndex(a + [ch] + b, ch) == |a|
  {
    var s := a + [ch] + b;
    assert s[|a|] == ch;
    if |a| > 0 {
      assert s[1..] == a[1..] + [ch] + b;
      FirstIndexAfterPrefix(a[1..], ch, b);
    }
  }

  /**
    Two strings that each start with a delimiter-free part followed by the delimiter
    agree on that part and on the rest.
   */
  lemma SplitAtDelimiter(a: string, b: string, c: string, d: string, delimiter: char)
    requires delimiter !in a && delimiter !in c
    ensures a + [delimiter] + b == c + [delimiter] + d ==> a == c && b == d
  {
    var l := a + [delimiter] + b;
    var r := c + [delimiter] + d;
    FirstIndexAfterPrefix(a, delimiter, b);
    FirstIndexAfterPrefix(c, delimiter, d);
    if l == r {
      assert |a| == |c|;
      assert a == l[..|a|] && c == r[..|c|];
      assert b == l[|a| + 1..] && d == r[|c| + 1..];
    }
  }
}
