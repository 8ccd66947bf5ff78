/**
  The validators of the Terraform plugin SDK's helper/validation package that
  the flow definition schema uses. StringLenBetween measures a Go string with
  `len`, which counts UTF-8 bytes, not characters.
*/
module Validation {

  /** The number of bytes UTF-8 uses for one Unicode scalar value. */
  function Utf8Width(c: char): (w: nat)
    ensures 1 <= w <= 4
    ensures w == 1 <==> c as int < 0x80
  {
    if c as int < 0x80 then 1
    else if c as int < 0x800 then 2
    else if c as int < 0x1_0000 then 3
    else 4
  }

  /** Go's `len` of the string: its length in UTF-8 bytes. */
  function Utf8Len(s: string): nat {
    if s == [] then 0 else Utf8Width(s[0]) + Utf8Len(s[1..])
  }

  predicate IsAscii(s: string) {
    forall i | 0 <= i < |s| :: s[i] as int < 0x80
  }

  /** Every character takes one to four bytes. */
  lemma {:induction false} Utf8LenBounds(s: string)
    ensures |s| <= Utf8Len(s) <= 4 * |s|
  {
    if s != [] {
      Utf8LenBounds(s[1..]);
    }
  }

  /** Byte length and character length agree exactly on ASCII strings. */
  lemma {:induction false} Utf8LenAscii(s: string)
    ensures Utf8Len(s) == |s| <==> IsAscii(s)
  {
    if s != [] {
      Utf8LenAscii(s[1..]);
      Utf8LenBounds(s[1..]);
      assert IsAscii(s) <==> s[0] as int < 0x80 && IsAscii(s[1..]) by {
        if s[0] as int < 0x80 && IsAscii(s[1..]) {
          forall i | 0 <= i < |s| ensures s[i] as int < 0x80 {
            if i > 0 { assert s[i] == s[1..][i - 1]; }
          }
        }
      }
    }
  }

  /** validation.StringLenBetween(min, max) */
  predicate StringLenBetween(s: string, min: int, max: int) {
    min <= Utf8Len(s) <= max
  }

  /** validation.IntBetween(min, max) */
  predicate IntBetween(v: int, min: int, max: int) {
    min <= v <= max
  }

  /** validation.StringInSlice(valid, false): an exact, case-sensitive match. */
  predicate StringInSlice(s: string, valid: seq<string>) {
    s in valid
  }
}
