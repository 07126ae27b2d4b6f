/**
 * The hex codec the capture format relies on: `str.encode('hex')` turns a
 * payload into lower-case hex digits, two per byte, and `str.decode('hex')`
 * turns hex text (either case) back into bytes, raising on an odd length or
 * on a character that is not a hex digit.
 */
module Hex {
  import opened Common

  /** The lower-case hex digit of a value below sixteen. */
  function Digit(d: int): (c: char)
    requires 0 <= d < 16
  {
    if d < 10 then ('0' as int + d) as char else ('a' as int + d - 10) as char
  }

  /** The value of a hex digit of either case; None for any other character. */
  function DigitValue(c: char): (v: Option<int>)
    ensures v.Some? ==> 0 <= v.value < 16
  {
    if '0' <= c <= '9' then Some(c as int - '0' as int)
    else if 'a' <= c <= 'f' then Some(c as int - 'a' as int + 10)
    else if 'A' <= c <= 'F' then Some(c as int - 'A' as int + 10)
    else None
  }

  predicate IsHexChar(c: char) {
    '0' <= c <= '9' || 'a' <= c <= 'f' || 'A' <= c <= 'F'
  }

  predicate IsLowerHexChar(c: char) {
    '0' <= c <= '9' || 'a' <= c <= 'f'
  }

  /** Text that `encode('hex')` can produce: even length, lower-case digits only. */
  predicate IsLowerHex(s: string) {
    |s| % 2 == 0 && forall i :: 0 <= i < |s| ==> IsLowerHexChar(s[i])
  }

  function ByteToHex(b: byte): (s: string)
  {
    [Digit(b as int / 16), Digit(b as int % 16)]
  }

  /** `str.encode('hex')`. */
  function HexEncode(bs: seq<byte>): (s: string)
    ensures |s| == 2 * |bs|
  {
    if bs == [] then [] else ByteToHex(bs[0]) + HexEncode(bs[1..])
  }

  /** The digit pairs of an even-length text, decoded left to right. */
  function DecodePairs(s: string): (r: Option<seq<byte>>)
    requires |s| % 2 == 0
    ensures r.Some? <==> forall i :: 0 <= i < |s| ==> IsHexChar(s[i])
    ensures r.Some? ==> 2 * |r.value| == |s|
    decreases |s|
  {
    if s == [] then Some([])
    else
      var hi, lo, rest := DigitValue(s[0]), DigitValue(s[1]), DecodePairs(s[2..]);
      if hi.None? || lo.None? || rest.None? then None
      else Some([(hi.value * 16 + lo.value) as byte] + rest.value)
  }

  /** `str.decode('hex')`: None where Python raises TypeError. */
  function HexDecode(s: string): (r: Option<seq<byte>>)
    ensures r.Some? <==> |s| % 2 == 0 && forall i :: 0 <= i < |s| ==> IsHexChar(s[i])
    ensures r.Some? ==> 2 * |r.value| == |s|
  {
    if |s| % 2 == 1 then None else DecodePairs(s)
  }

  lemma ByteToHexDecodes(b: byte)
    ensures DigitValue(ByteToHex(b)[0]) == Some(b as int / 16)
    ensures DigitValue(ByteToHex(b)[1]) == Some(b as int % 16)
    ensures IsLowerHexChar(ByteToHex(b)[0]) && IsLowerHexChar(ByteToHex(b)[1])
  {
  }

  /** Decoding what was encoded gives the payload back. */
  lemma {:induction false} DecodeEncode(bs: seq<byte>)
    ensures HexDecode(HexEncode(bs)) == Some(bs)
  {
    if bs != [] {
      var s := HexEncode(bs);
      DecodeEncode(bs[1..]);
      ByteToHexDecodes(bs[0]);
      assert s[2..] == HexEncode(bs[1..]);
      assert s[0] == ByteToHex(bs[0])[0] && s[1] == ByteToHex(bs[0])[1];
      assert (bs[0] as int / 16) * 16 + bs[0] as int % 16 == bs[0] as int;
      assert DecodePairs(s[2..]) == Some(bs[1..]);
      assert DecodePairs(s) == Some([bs[0]] + bs[1..]);
      assert [bs[0]] + bs[1..] == bs;
    }
  }

  /** Encoded payloads are lower-case hex. */
  lemma {:induction false} EncodeIsLowerHex(bs: seq<byte>)
    ensures IsLowerHex(HexEncode(bs))
  {
    if bs != [] {
      EncodeIsLowerHex(bs[1..]);
      ByteToHexDecodes(bs[0]);
      var s := HexEncode(bs);
      assert s == ByteToHex(bs[0]) + HexEncode(bs[1..]);
      forall i | 0 <= i < |s| ensures IsLowerHexChar(s[i]) {
        if i >= 2 { assert s[i] == HexEncode(bs[1..])[i - 2]; }
      }
    }
  }

  lemma DigitOfValue(c: char)
    requires IsLowerHexChar(c)
    ensures DigitValue(c).Some? && Digit(DigitValue(c).value) == c
  {
  }

  /** Encoding what was decoded gives lower-case hex text back unchanged. */
  lemma {:induction false} EncodeDecode(s: string)
    requires IsLowerHex(s)
    ensures HexDecode(s).Some? && HexEncode(HexDecode(s).value) == s
  {
    if s != [] {
      var tail := s[2..];
      assert IsLowerHex(tail) by {
        forall i | 0 <= i < |tail| ensures IsLowerHexChar(tail[i]) { assert tail[i] == s[i + 2]; }
      }
      EncodeDecode(tail);
      DigitOfValue(s[0]);
      DigitOfValue(s[1]);
      var hi, lo := DigitValue(s[0]).value, DigitValue(s[1]).value;
      var b := (hi * 16 + lo) as byte;
      assert HexDecode(s).value == [b] + HexDecode(tail).value;
      assert b as int / 16 == hi && b as int % 16 == lo;
      assert HexEncode(HexDecode(s).value) == ByteToHex(b) + HexEncode(HexDecode(tail).value);
    }
  }

  /** Two payloads with the same hex text are the same payload. */
  lemma EncodeInjective(a: seq<byte>, b: seq<byte>)
    requires HexEncode(a) == HexEncode(b)
    ensures a == b
  {
    DecodeEncode(a);
    DecodeEncode(b);
  }
}
