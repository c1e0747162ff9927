/**
 * Go strings as byte sequences, and the two standard-library string
 * operations the core relies on: `strings.Split` with a one-byte separator,
 * and the decimal formatting (`%d`) and parsing (`strconv.Atoi`) of
 * 64-bit integers.
 */
module Bytes {
  import opened Wrappers

  newtype byte = x: int | 0 <= x < 256

  /** A Go `string`: an immutable sequence of bytes. */
  type Str = seq<byte>

  const MinInt64: int := -0x8000_0000_0000_0000
  const MaxInt64: int := 0x7FFF_FFFF_FFFF_FFFF

  /** The bytes of an ASCII literal. */
  function Ascii(s: string): (r: Str)
    requires forall i :: 0 <= i < |s| ==> s[i] as int < 128
    ensures |r| == |s|
  {
    seq(|s|, i requires 0 <= i < |s| => s[i] as int as byte)
  }

  const Space: byte := 32
  const Colon: byte := 58
  const Minus: byte := 45
  const Plus: byte := 43

  /** Number of occurrences of `c` in `s`. */
  function Count(s: Str, c: byte): nat
  {
    if s == [] then 0 else (if s[0] == c then 1 else 0) + Count(s[1..], c)
  }

  /** Position of the first `c` in `s`. */
  function IndexOf(s: Str, c: byte): (i: nat)
    requires c in s
    ensures i < |s| && s[i] == c && c !in s[..i]
  {
    if s[0] == c then 0 else 1 + IndexOf(s[1..], c)
  }

  /**
   * `strings.Split(s, sep)` for a one-byte separator: the pieces between
   * consecutive separators, so `Split("", sep) == [""]`.
   */
  function Split(s: Str, sep: byte): (r: seq<Str>)
    ensures |r| >= 1
    decreases |s|
  {
    if sep !in s then [s]
    else
      var i := IndexOf(s, sep);
      [s[..i]] + Split(s[i + 1..], sep)
  }

  /** `strings.Join(fields, sep)` for a one-byte separator. */
  function Join(fields: seq<Str>, sep: byte): Str
    requires |fields| >= 1
  {
    if |fields| == 1 then fields[0] else fields[0] + [sep] + Join(fields[1..], sep)
  }

  lemma CountAppend(a: Str, b: Str, c: byte)
    ensures Count(a + b, c) == Count(a, c) + Count(b, c)
  {
    if a != [] {
      assert (a + b)[0] == a[0];
      assert (a + b)[1..] == a[1..] + b;
      CountAppend(a[1..], b, c);
    } else {
      assert a + b == b;
    }
  }

  lemma CountZero(s: Str, c: byte)
    ensures Count(s, c) == 0 <==> c !in s
  {
    if s != [] {
      CountZero(s[1..], c);
      assert s == [s[0]] + s[1..];
    }
  }

  /** Split yields one more field than there are separators. */
  lemma {:induction false} SplitLength(s: Str, sep: byte)
    ensures |Split(s, sep)| == Count(s, sep) + 1
    decreases |s|
  {
    if sep !in s {
      CountZero(s, sep);
    } else {
      var i := IndexOf(s, sep);
      assert s == s[..i] + [sep] + s[i + 1..];
      CountAppend(s[..i] + [sep], s[i + 1..], sep);
      CountAppend(s[..i], [sep], sep);
      CountZero(s[..i], sep);
      SplitLength(s[i + 1..], sep);
    }
  }

  /** No field of a split contains the separator. */
  lemma {:induction false} SplitFieldsFree(s: Str, sep: byte)
    ensures forall k :: 0 <= k < |Split(s, sep)| ==> sep !in Split(s, sep)[k]
    decreases |s|
  {
    if sep in s {
      SplitFieldsFree(s[IndexOf(s, sep) + 1..], sep);
    }
  }

  /** Joining the fields of a split gives back the string. */
  lemma {:induction false} JoinSplit(s: Str, sep: byte)
    ensures Join(Split(s, sep), sep) == s
    decreases |s|
  {
    if sep in s {
      var i := IndexOf(s, sep);
      var rest := Split(s[i + 1..], sep);
      JoinSplit(s[i + 1..], sep);
      assert Split(s, sep) == [s[..i]] + rest;
      assert (([s[..i]] + rest)[1..]) == rest;
      assert s == s[..i] + [sep] + s[i + 1..];
    }
  }

  /** Splitting a join of separator-free fields gives back the fields. */
  lemma {:induction false} SplitJoin(fields: seq<Str>, sep: byte)
    requires |fields| >= 1
    requires forall k :: 0 <= k < |fields| ==> sep !in fields[k]
    ensures Split(Join(fields, sep), sep) == fields
    decreases |fields|
  {
    if |fields| > 1 {
      var f := fields[0];
      var rest := Join(fields[1..], sep);
      var s := f + [sep] + rest;
      assert s[|f|] == sep;
      assert sep in s;
      assert s[..|f|] == f;
      var i := IndexOf(s, sep);
      assert i == |f|;
      assert s[i + 1..] == rest;
      SplitJoin(fields[1..], sep);
    }
  }

  // ---------------------------------------------------------------------
  // Decimal integers: `fmt.Sprintf("%d", n)` and `strconv.Atoi(s)`.

  predicate IsDigit(b: byte)
  {
    48 <= b <= 57
  }

  predicate AllDigits(s: Str)
  {
    forall i :: 0 <= i < |s| ==> IsDigit(s[i])
  }

  /** Decimal digits of `n`, without leading zeros. */
  function Digits(n: nat): (r: Str)
    ensures |r| >= 1 && AllDigits(r)
  {
    if n < 10 then [(48 + n) as byte] else Digits(n / 10) + [(48 + n % 10) as byte]
  }

  /** The number a string of decimal digits denotes. */
  function DigitsValue(s: Str): nat
    requires AllDigits(s)
  {
    if s == [] then 0 else 10 * DigitsValue(s[..|s| - 1]) + (s[|s| - 1] - 48) as int
  }

  /** `%d`: a minus sign for negative numbers, then the digits. */
  function FormatInt(n: int): (r: Str)
    ensures Colon !in r && Space !in r
  {
    if n < 0 then [Minus] + Digits(-n) else Digits(n)
  }

  /**
   * `strconv.Atoi` on a 64-bit platform: an optional sign, then one or more
   * decimal digits, whose value must fit in an `int64`; anything else fails.
   */
  function Atoi(s: Str): (r: Option<int>)
    ensures r.Some? ==> MinInt64 <= r.value <= MaxInt64
  {
    var signed := |s| > 0 && (s[0] == Minus || s[0] == Plus);
    var body := if signed then s[1..] else s;
    if body == [] || !AllDigits(body) then None
    else
      var v: int := if signed && s[0] == Minus then -(DigitsValue(body) as int) else DigitsValue(body);
      if MinInt64 <= v <= MaxInt64 then Some(v) else None
  }

  lemma {:induction false} DigitsValueOfDigits(n: nat)
    ensures DigitsValue(Digits(n)) == n
  {
    if n >= 10 {
      DigitsValueOfDigits(n / 10);
      var d := Digits(n);
      assert d[..|d| - 1] == Digits(n / 10);
    }
  }

  /** `Atoi` reads back every 64-bit integer that `%d` writes. */
  lemma AtoiFormatInt(n: int)
    requires MinInt64 <= n <= MaxInt64
    ensures Atoi(FormatInt(n)) == Some(n)
  {
    if n < 0 {
      DigitsValueOfDigits(-n);
      assert FormatInt(n)[1..] == Digits(-n);
    } else {
      DigitsValueOfDigits(n);
    }
  }
}
