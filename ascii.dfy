/** `String.prototype.toUpperCase`, restricted to the ASCII letters. */
module Ascii {

  predicate IsLower(c: char) {
    'a' <= c <= 'z'
  }

  /** Maps `a`..`z` to `A`..`Z` and leaves every other character alone. */
  function UpperChar(c: char): (u: char)
    ensures !IsLower(u)
    ensures IsLower(c) ==> u as int + 32 == c as int
    ensures !IsLower(c) ==> u == c
  {
    if IsLower(c) then (c as int - 32) as char else c
  }

  /** Upper-cases every lower-case ASCII letter, character by character, and
      keeps every other character where it is. */
  function ToUpper(s: string): (r: string)
    ensures |r| == |s|
    ensures forall i :: 0 <= i < |s| ==> (IsLower(s[i]) ==> r[i] as int + 32 == s[i] as int)
    ensures forall i :: 0 <= i < |s| ==> (!IsLower(s[i]) ==> r[i] == s[i])
  {
    seq(|s|, i requires 0 <= i < |s| => UpperChar(s[i]))
  }

  /** Upper-casing a string twice is the same as once. */
  lemma ToUpperIdempotent(s: string)
    ensures ToUpper(ToUpper(s)) == ToUpper(s)
  {
  }

  /** Two characters that are equal, or are one ASCII letter in its two cases. */
  predicate SameIgnoringCase(c: char, d: char) {
    c == d || (IsLower(c) && c as int - 32 == d as int) || (IsLower(d) && d as int - 32 == c as int)
  }

  /** Two strings upper-case to the same string exactly when they have the same
      length and agree position by position up to the case of ASCII letters. */
  lemma ToUpperEqualIff(s: string, t: string)
    ensures ToUpper(s) == ToUpper(t) <==>
      |s| == |t| && forall i :: 0 <= i < |s| ==> SameIgnoringCase(s[i], t[i])
  {
    if ToUpper(s) == ToUpper(t) {
      forall i | 0 <= i < |s| ensures SameIgnoringCase(s[i], t[i]) {
        assert ToUpper(s)[i] == ToUpper(t)[i];
      }
    }
    if |s| == |t| && forall i :: 0 <= i < |s| ==> SameIgnoringCase(s[i], t[i]) {
      forall i | 0 <= i < |s| ensures ToUpper(s)[i] == ToUpper(t)[i] {
        assert SameIgnoringCase(s[i], t[i]);
      }
    }
  }
}
