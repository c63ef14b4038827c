/**
 * JavaScript string length. A JavaScript string is a sequence of UTF-16 code
 * units, so its `.length` counts a character outside the Basic Multilingual
 * Plane (code point 0x10000 or above) twice: once per half of its surrogate pair.
 * A Dafny `string` is a sequence of Unicode scalar values.
 */
module JsString {

  /** Every character lies in the Basic Multilingual Plane: one code unit each. */
  predicate IsBmp(s: string) {
    forall i :: 0 <= i < |s| ==> s[i] as int < 0x10000
  }

  /** The number of UTF-16 code units of `s`: JavaScript's `s.length`. */
  function Utf16Length(s: string): (n: nat)
    ensures |s| <= n <= 2 * |s|
    ensures n == |s| <==> IsBmp(s)
  {
    if s == [] then 0
    else
      assert forall i :: 0 < i < |s| ==> s[1..][i - 1] == s[i];
      (if s[0] as int < 0x10000 then 1 else 2) + Utf16Length(s[1..])
  }

  /** Four emoji are four Dafny characters but eight JavaScript code units. */
  lemma SurrogatePairsCountTwice()
    ensures |"\U{1F600}\U{1F600}\U{1F600}\U{1F600}"| == 4
    ensures Utf16Length("\U{1F600}\U{1F600}\U{1F600}\U{1F600}") == 8
  {
  }
}
