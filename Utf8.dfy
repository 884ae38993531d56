/**
  Byte length of a string in UTF-8, which is what Go's len reports for a
  string. Dafny characters are Unicode scalar values.
 */
module Utf8 {

  /** The number of bytes UTF-8 uses for one character. */
  function Width(c: char): (n: nat)
    ensures 1 <= n <= 4
    ensures n == 1 <==> c as int < 0x80
  {
    if c as int < 0x80 then 1
    else if c as int < 0x800 then 2
    else if c as int < 0x1_0000 then 3
    else 4
  }

  predicate IsAscii(s: string) {
    forall i :: 0 <= i < |s| ==> s[i] as int < 0x80
  }

  function Length(s: string): (n: nat)
    ensures |s| <= n <= 4 * |s|
  {
    if s == [] then 0 else Width(s[0]) + Length(s[1..])
  }

  /** The byte length is the character count exactly when every character is ASCII. */
  lemma {:induction false} LengthIsCountIffAscii(s: string)
    ensures Length(s) == |s| <==> IsAscii(s)
  {
    if s != [] {
      LengthIsCountIffAscii(s[1..]);
      assert IsAscii(s) <==> s[0] as int < 0x80 && IsAscii(s[1..]) by {
        if IsAscii(s[1..]) && s[0] as int < 0x80 {
          forall i | 0 <= i < |s| ensures s[i] as int < 0x80 {
            if i > 0 { assert s[i] == s[1..][i - 1]; }
          }
        }
      }
    }
  }
}
