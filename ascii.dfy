/** ASCII case mapping: the part of Java's `String.toUpperCase` that the
    exporter type tags depend on, and an independent case-insensitive
    equality to compare it against. */
module Ascii {

  predicate IsLower(c: char) { 'a' <= c <= 'z' }

  predicate IsUpper(c: char) { 'A' <= c <= 'Z' }

  /** Upper-case one character: a lower-case ASCII letter becomes its
      capital, every other character is left alone. */
  function UpperChar(c: char): (u: char)
    ensures !IsLower(u)
    ensures IsLower(c) ==> IsUpper(u) && u as int + 32 == c as int
    ensures !IsLower(c) ==> u == c
  {
    if IsLower(c) then (c as int - 32) as char else c
  }

  /** Lower-case one character, the mirror image of UpperChar. */
  function LowerChar(c: char): (l: char)
    ensures !IsUpper(l)
    ensures IsUpper(c) ==> IsLower(l) && l as int == c as int + 32
    ensures !IsUpper(c) ==> l == c
  {
    if IsUpper(c) then (c as int + 32) as char else c
  }

  /** Upper-case a string character by character. */
  function ToUpper(s: string): (r: string)
    ensures |r| == |s|
    ensures forall i :: 0 <= i < |s| ==> r[i] == UpperChar(s[i])
  {
    if s == [] then [] else [UpperChar(s[0])] + ToUpper(s[1..])
  }

  /** Lower-case a string character by character. */
  function ToLower(s: string): (r: string)
    ensures |r| == |s|
    ensures forall i :: 0 <= i < |s| ==> r[i] == LowerChar(s[i])
  {
    if s == [] then [] else [LowerChar(s[0])] + ToLower(s[1..])
  }

  /** Two characters are the same letter up to case: equal, or one is the
      lower-case form of the other. Stated with LowerChar only, so it is
      a reference independent of UpperChar. */
  predicate SameIgnoringCase(a: char, b: char) {
    a == b || (IsUpper(a) && LowerChar(a) == b) || (IsUpper(b) && LowerChar(b) == a)
  }

  /** Case-insensitive string equality, position by position. */
  predicate EqualsIgnoringCase(s: string, t: string) {
    |s| == |t| && forall i :: 0 <= i < |s| ==> SameIgnoringCase(s[i], t[i])
  }

  /** Upper-casing identifies exactly the characters that agree up to case. */
  lemma UpperCharSameIff(a: char, b: char)
    ensures UpperChar(a) == UpperChar(b) <==> SameIgnoringCase(a, b)
  {
  }

  /** Upper-casing identifies exactly the strings that agree up to case:
      this is what makes a lookup through ToUpper case-insensitive. */
  lemma ToUpperEqualIff(s: string, t: string)
    ensures ToUpper(s) == ToUpper(t) <==> EqualsIgnoringCase(s, t)
  {
  }

  /** Upper-casing twice is upper-casing once. */
  lemma ToUpperIdempotent(s: string)
    ensures ToUpper(ToUpper(s)) == ToUpper(s)
  {
  }

  /** Lowering the case first changes nothing about the upper-cased form. */
  lemma ToUpperOfToLower(s: string)
    ensures ToUpper(ToLower(s)) == ToUpper(s)
  {
  }
}
