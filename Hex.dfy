/**
  Hexadecimal text encoding of byte strings, as the cache stores blob payloads.
  Encoding writes two lower-case digits per byte; decoding accepts digits of
  either case and refuses an odd length or any other character, as Go's
  encoding/hex does.
 */
module Hex {

  type byte = x: int | 0 <= x < 256

  datatype Option<T> = None | Some(value: T)

  predicate IsLowerHexDigit(c: char) {
    '0' <= c <= '9' || 'a' <= c <= 'f'
  }

  predicate IsHexDigit(c: char) {
    IsLowerHexDigit(c) || 'A' <= c <= 'F'
  }

  /** The value of one hexadecimal digit of either case. */
  function DigitValue(c: char): (r: Option<int>)
    ensures r.Some? <==> IsHexDigit(c)
    ensures r.Some? ==> 0 <= r.value < 16
  {
    if '0' <= c <= '9' then Some(c as int - '0' as int)
    else if 'a' <= c <= 'f' then Some(c as int - 'a' as int + 10)
    else if 'A' <= c <= 'F' then Some(c as int - 'A' as int + 10)
    else None
  }

  /** The lower-case digit for a value below 16. */
  function Digit(n: int): (c: char)
    requires 0 <= n < 16
    ensures IsLowerHexDigit(c) && DigitValue(c) == Some(n)
  {
    if n < 10 then ('0' as int + n) as char else ('a' as int + n - 10) as char
  }

  /** The same digit written in lower case. */
  function LowerDigit(c: char): (d: char)
    requires IsHexDigit(c)
    ensures IsLowerHexDigit(d) && DigitValue(d) == DigitValue(c)
  {
    if 'A' <= c <= 'F' then (c as int - 'A' as int + 'a' as int) as char else c
  }

  function Lower(s: string): (r: string)
    requires forall i :: 0 <= i < |s| ==> IsHexDigit(s[i])
    ensures |r| == |s|
    ensures forall i :: 0 <= i < |s| ==> r[i] == LowerDigit(s[i])
  {
    if s == [] then [] else [LowerDigit(s[0])] + Lower(s[1..])
  }

  function Encode(data: seq<byte>): (r: string)
    ensures |r| == 2 * |data|
    ensures forall i :: 0 <= i < |r| ==> IsLowerHexDigit(r[i])
    // each byte becomes its high digit followed by its low digit
    ensures forall i :: 0 <= i < |data| ==> r[2 * i] == Digit(data[i] / 16) && r[2 * i + 1] == Digit(data[i] % 16)
  {
    if data == [] then []
    else [Digit(data[0] / 16), Digit(data[0] % 16)] + Encode(data[1..])
  }

  function Decode(s: string): (r: Option<seq<byte>>)
    ensures r.Some? <==> |s| % 2 == 0 && forall i :: 0 <= i < |s| ==> IsHexDigit(s[i])
    ensures r.Some? ==> 2 * |r.value| == |s|
    decreases |s|
  {
    if |s| == 0 then Some([])
    else if |s| == 1 || !IsHexDigit(s[0]) || !IsHexDigit(s[1]) then None
    else
      match Decode(s[2..])
      case None =>
        None
      case Some(rest) =>
        Some([(DigitValue(s[0]).value * 16 + DigitValue(s[1]).value) as byte] + rest)
  }

  /** Decoding undoes encoding: a cached value reads back as the bytes it was made from. */
  lemma {:induction false} DecodeEncode(data: seq<byte>)
    ensures Decode(Encode(data)) == Some(data)
  {
    if data != [] {
      var e := Encode(data);
      assert e[2..] == Encode(data[1..]);
      DecodeEncode(data[1..]);
      assert data == [data[0]] + data[1..];
    }
  }

  /** Encoding a non-empty byte string starts with the two digits of its first byte. */
  lemma EncodeFirstByte(d: seq<byte>)
    requires d != []
    ensures Encode(d) == [Digit(d[0] / 16), Digit(d[0] % 16)] + Encode(d[1..])
  {
  }

  /** A byte's two digits are its quotient and remainder by 16. */
  lemma ByteDigits(hi: int, lo: int)
    requires 0 <= hi < 16 && 0 <= lo < 16
    ensures (hi * 16 + lo) / 16 == hi && (hi * 16 + lo) % 16 == lo
  {
  }

  /** Lower-casing a string of digits starts with its first two digits lower-cased. */
  lemma LowerFirstDigits(s: string)
    requires |s| >= 2 && forall i :: 0 <= i < |s| ==> IsHexDigit(s[i])
    ensures Lower(s) == [LowerDigit(s[0]), LowerDigit(s[1])] + Lower(s[2..])
  {
  }

  /** A lower-case digit is determined by its value. */
  lemma LowerDigitInjective(a: char, b: char)
    requires IsLowerHexDigit(a) && IsLowerHexDigit(b) && DigitValue(a) == DigitValue(b)
    ensures a == b
  {
  }

  /** Every string that decodes is the encoding of its value, up to the case of its digits. */
  lemma {:induction false} EncodeDecode(s: string)
    requires Decode(s).Some?
    ensures Encode(Decode(s).value) == Lower(s)
    decreases |s|
  {
    if |s| != 0 {
      var d := Decode(s).value;
      var hi, lo := DigitValue(s[0]).value, DigitValue(s[1]).value;
      assert d[0] == hi * 16 + lo && d[1..] == Decode(s[2..]).value;
      ByteDigits(hi, lo);
      LowerDigitInjective(Digit(hi), LowerDigit(s[0]));
      LowerDigitInjective(Digit(lo), LowerDigit(s[1]));
      EncodeDecode(s[2..]);
      EncodeFirstByte(d);
      LowerFirstDigits(s);
    }
  }
}
