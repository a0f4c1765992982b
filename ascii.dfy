/**
 * ASCII case mapping, standing for Java's String.toUpperCase and
 * String.toLowerCase on the characters the Resource Reference grammar uses.
 */
module Ascii {

  predicate IsUpperLetter(c: char) { 'A' <= c <= 'Z' }

  predicate IsLowerLetter(c: char) { 'a' <= c <= 'z' }

  function UpperChar(c: char): char
  {
    if IsLowerLetter(c) then (c as int - 32) as char else c
  }

  function LowerChar(c: char): char
  {
    if IsUpperLetter(c) then (c as int + 32) as char else c
  }

  /** No character of s is an ASCII lower-case letter. */
  predicate NoLower(s: string)
  {
    forall i :: 0 <= i < |s| ==> !IsLowerLetter(s[i])
  }

  /** No character of s is an ASCII upper-case letter. */
  predicate NoUpper(s: string)
  {
    forall i :: 0 <= i < |s| ==> !IsUpperLetter(s[i])
  }

  /** a and b spell the same word when ASCII letter case is ignored. */
  predicate SameIgnoringCase(a: string, b: string)
  {
    |a| == |b| && forall i :: 0 <= i < |a| ==> LowerChar(a[i]) == LowerChar(b[i])
  }

  /** String.toUpperCase: the same word with every letter upper-case. */
  function Upper(s: string): (r: string)
    ensures NoLower(r) && SameIgnoringCase(s, r)
  {
    if s == [] then [] else [UpperChar(s[0])] + Upper(s[1..])
  }

  /** String.toLowerCase: the same word with every letter lower-case. */
  function Lower(s: string): (r: string)
    ensures NoUpper(r) && SameIgnoringCase(s, r)
  {
    if s == [] then [] else [LowerChar(s[0])] + Lower(s[1..])
  }

  /** A word has exactly one all-upper-case spelling. */
  lemma NoLowerUnique(a: string, b: string)
    requires NoLower(a) && NoLower(b) && SameIgnoringCase(a, b)
    ensures a == b
  {
    forall i | 0 <= i < |a| ensures a[i] == b[i] {
      assert LowerChar(a[i]) == LowerChar(b[i]);
      assert !IsLowerLetter(a[i]) && !IsLowerLetter(b[i]);
    }
  }

  /** A word has exactly one all-lower-case spelling. */
  lemma NoUpperUnique(a: string, b: string)
    requires NoUpper(a) && NoUpper(b) && SameIgnoringCase(a, b)
    ensures a == b
  {
    forall i | 0 <= i < |a| ensures a[i] == b[i] {
      assert LowerChar(a[i]) == LowerChar(b[i]);
      assert !IsUpperLetter(a[i]) && !IsUpperLetter(b[i]);
    }
  }

  /** Upper-casing leaves a string without lower-case letters unchanged, so it is idempotent. */
  lemma UpperIdentity(s: string)
    requires NoLower(s)
    ensures Upper(s) == s
  {
    NoLowerUnique(Upper(s), s);
  }

  /** Lower-casing leaves a string without upper-case letters unchanged, so it is idempotent. */
  lemma LowerIdentity(s: string)
    requires NoUpper(s)
    ensures Lower(s) == s
  {
    NoUpperUnique(Lower(s), s);
  }

  lemma UpperIdempotent(s: string)
    ensures Upper(Upper(s)) == Upper(s)
  {
    UpperIdentity(Upper(s));
  }

  lemma LowerIdempotent(s: string)
    ensures Lower(Lower(s)) == Lower(s)
  {
    LowerIdentity(Lower(s));
  }
}
