/** ASCII case mapping, as Python's `str.upper` behaves on ASCII text. */
module Ascii {

  predicate IsLower(c: char) {
    'a' <= c <= 'z'
  }

  predicate IsUpper(c: char) {
    'A' <= c <= 'Z'
  }

  /** Upper-cases one ASCII letter; every other character is kept. */
  function UpperChar(c: char): (u: char)
    ensures !IsLower(u)
    ensures u == c || (IsUpper(u) && u as int + 32 == c as int)
  {
    if IsLower(c) then (c as int - 32) as char else c
  }

  /** `s.upper()` restricted to ASCII: no lower-case letter is left, and
      each character is either kept or replaced by its upper-case partner. */
  function Upper(s: string): (u: string)
    ensures |u| == |s|
    ensures forall i :: 0 <= i < |u| ==> !IsLower(u[i])
    ensures forall i :: 0 <= i < |s| ==> u[i] == s[i] || (IsUpper(u[i]) && u[i] as int + 32 == s[i] as int)
  {
    seq(|s|, i requires 0 <= i < |s| => UpperChar(s[i]))
  }

  /** A word written only with upper-case ASCII letters, such as a lab name. */
  predicate IsUpperWord(w: string) {
    forall i :: 0 <= i < |w| ==> IsUpper(w[i])
  }

  /** `s` spells the upper-case word `w`, each letter in either case. */
  predicate SameIgnoringCase(s: string, w: string) {
    && |s| == |w|
    && forall i :: 0 <= i < |s| ==> s[i] == w[i] || s[i] as int == w[i] as int + 32
  }

  /** Upper-casing then comparing with an upper-case word is exactly
      case-insensitive comparison with that word. */
  lemma UpperMatches(s: string, w: string)
    requires IsUpperWord(w)
    ensures Upper(s) == w <==> SameIgnoringCase(s, w)
  {
  }

  /** Upper-casing an already upper-cased name changes nothing. */
  lemma UpperIdempotent(s: string)
    ensures Upper(Upper(s)) == Upper(s)
  {
  }
}
