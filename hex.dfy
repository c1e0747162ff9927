/**
 * Base 16 encoding as in section 8 of RFC 4648, the way Go's
 * `encoding/hex` does it: `EncodeToString` writes lower-case digits, and
 * `DecodeString` accepts digits of either case and fails on an odd length
 * or on any byte that is not a hexadecimal digit.
 */
module Hex {
  import opened Wrappers
  import opened Bytes

  /** The digit for `v`, from the alphabet "0123456789abcdef". */
  function HexDigit(v: nat): (b: byte)
    requires v < 16
  {
    if v < 10 then (48 + v) as byte else (87 + v) as byte
  }

  /** '0'..'9', 'a'..'f' or 'A'..'F'. */
  predicate IsHexDigit(b: byte)
  {
    48 <= b <= 57 || 97 <= b <= 102 || 65 <= b <= 70
  }

  predicate IsLowerHexDigit(b: byte)
  {
    48 <= b <= 57 || 97 <= b <= 102
  }

  function HexValue(b: byte): (v: nat)
    requires IsHexDigit(b)
    ensures v < 16
  {
    if b <= 57 then (b - 48) as int else if b >= 97 then (b - 87) as int else (b - 55) as int
  }

  /** A string `DecodeString` accepts: even length, hexadecimal digits only. */
  predicate IsHex(s: Str)
  {
    |s| % 2 == 0 && forall i :: 0 <= i < |s| ==> IsHexDigit(s[i])
  }

  /** `hex.EncodeToString`: two lower-case digits per byte, high nibble first. */
  function HexEncode(bs: seq<byte>): (r: Str)
    ensures |r| == 2 * |bs|
    ensures forall i :: 0 <= i < |r| ==> IsLowerHexDigit(r[i])
  {
    if bs == [] then []
    else [HexDigit(bs[0] as int / 16), HexDigit(bs[0] as int % 16)] + HexEncode(bs[1..])
  }

  /** `hex.DecodeString`: `None` stands for its error result. */
  function HexDecode(s: Str): (r: Option<seq<byte>>)
    decreases |s|
  {
    if s == [] then Some([])
    else if |s| == 1 || !IsHexDigit(s[0]) || !IsHexDigit(s[1]) then None
    else match HexDecode(s[2..])
      case None => None
      case Some(rest) => Some([(16 * HexValue(s[0]) + HexValue(s[1])) as byte] + rest)
  }

  /** Decoding succeeds exactly on even-length strings of hexadecimal digits. */
  lemma {:induction false} HexDecodeSucceeds(s: Str)
    ensures HexDecode(s).Some? <==> IsHex(s)
    ensures HexDecode(s).Some? ==> 2 * |HexDecode(s).value| == |s|
    decreases |s|
  {
    if |s| >= 2 {
      HexDecodeSucceeds(s[2..]);
      if IsHexDigit(s[0]) && IsHexDigit(s[1]) && IsHex(s[2..]) {
        assert forall i :: 0 <= i < |s| ==> IsHexDigit(s[i]) by {
          forall i | 0 <= i < |s| ensures IsHexDigit(s[i]) {
            if i >= 2 { assert s[i] == s[2..][i - 2]; }
          }
        }
      }
      if IsHex(s) {
        assert forall i :: 0 <= i < |s[2..]| ==> IsHexDigit(s[2..][i]) by {
          forall i | 0 <= i < |s[2..]| ensures IsHexDigit(s[2..][i]) {
            assert s[2..][i] == s[i + 2];
          }
        }
      }
    }
  }

  lemma HexValueOfDigit(v: nat)
    requires v < 16
    ensures IsHexDigit(HexDigit(v)) && HexValue(HexDigit(v)) == v
  {
  }

  /** Decoding an encoding gives back the bytes. */
  lemma {:induction false} HexDecodeEncode(bs: seq<byte>)
    ensures HexDecode(HexEncode(bs)) == Some(bs)
  {
    if bs != [] {
      var hi, lo := bs[0] as int / 16, bs[0] as int % 16;
      HexValueOfDigit(hi);
      HexValueOfDigit(lo);
      var e := HexEncode(bs);
      assert e[2..] == HexEncode(bs[1..]);
      HexDecodeEncode(bs[1..]);
      assert [bs[0]] + bs[1..] == bs;
    }
  }

  /** Every encoding is accepted by the decoder. */
  lemma HexEncodeIsHex(bs: seq<byte>)
    ensures IsHex(HexEncode(bs))
  {
    HexDecodeEncode(bs);
    HexDecodeSucceeds(HexEncode(bs));
  }

  /** On lower-case input, encoding the decoded bytes gives back the string. */
  lemma {:induction false} HexEncodeDecode(s: Str)
    requires IsHex(s)
    requires forall i :: 0 <= i < |s| ==> IsLowerHexDigit(s[i])
    ensures HexDecode(s).Some? && HexEncode(HexDecode(s).value) == s
    decreases |s|
  {
    HexDecodeSucceeds(s);
    if s != [] {
      var t := s[2..];
      assert forall i :: 0 <= i < |t| ==> t[i] == s[i + 2];
      HexEncodeDecode(t);
      var b := (16 * HexValue(s[0]) + HexValue(s[1])) as byte;
      assert b as int / 16 == HexValue(s[0]) && b as int % 16 == HexValue(s[1]);
      assert HexDigit(HexValue(s[0])) == s[0];
      assert HexDigit(HexValue(s[1])) == s[1];
      var d := HexDecode(s).value;
      assert d == [b] + HexDecode(t).value;
      assert d[1..] == HexDecode(t).value;
      assert s == [s[0], s[1]] + t;
    }
  }
}
