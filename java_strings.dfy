/**
 * The part of `java.lang.String` the model needs: `equalsIgnoreCase`.
 * Case mapping is modelled for the ASCII letters only.
 */
module JavaStrings {

  /** `Character.toUpperCase`, restricted to ASCII letters. */
  function ToUpper(c: char): char {
    if 'a' <= c <= 'z' then (c as int - 32) as char else c
  }

  /** `Character.toLowerCase`, restricted to ASCII letters. */
  function ToLower(c: char): char {
    if 'A' <= c <= 'Z' then (c as int + 32) as char else c
  }

  /** The per-character test of `String.regionMatches(true, ...)`: equal, equal upper case, or equal lower case of the upper case. */
  predicate CharsEqualIgnoreCase(c1: char, c2: char) {
    c1 == c2 || ToUpper(c1) == ToUpper(c2) || ToLower(ToUpper(c1)) == ToLower(ToUpper(c2))
  }

  /** `a.equalsIgnoreCase(b)` for a non-null `b`: same length and every pair of characters matches ignoring case. */
  predicate EqualsIgnoreCase(a: string, b: string) {
    |a| == |b| && (a == [] || (CharsEqualIgnoreCase(a[0], b[0]) && EqualsIgnoreCase(a[1..], b[1..])))
  }

  /** The upper-case image of a string, character by character: an independent reference for `EqualsIgnoreCase`. */
  function UpperAll(s: string): (r: string)
    ensures |r| == |s|
    ensures forall i :: 0 <= i < |s| ==> r[i] == ToUpper(s[i])
  {
    if s == [] then [] else [ToUpper(s[0])] + UpperAll(s[1..])
  }

  /** Two characters match ignoring case exactly when their upper-case images agree. */
  lemma CharsEqualIgnoreCaseIffUpper(c1: char, c2: char)
    ensures CharsEqualIgnoreCase(c1, c2) <==> ToUpper(c1) == ToUpper(c2)
  {
  }

  /** `EqualsIgnoreCase` is equality of the upper-case images. */
  lemma {:induction false} EqualsIgnoreCaseIffUpperAll(a: string, b: string)
    ensures EqualsIgnoreCase(a, b) <==> UpperAll(a) == UpperAll(b)
  {
    if a != [] && b != [] {
      CharsEqualIgnoreCaseIffUpper(a[0], b[0]);
      EqualsIgnoreCaseIffUpperAll(a[1..], b[1..]);
      assert UpperAll(a) == [ToUpper(a[0])] + UpperAll(a[1..]);
      assert UpperAll(b) == [ToUpper(b[0])] + UpperAll(b[1..]);
      if UpperAll(a) == UpperAll(b) {
        assert UpperAll(a)[0] == UpperAll(b)[0];
        assert UpperAll(a[1..]) == UpperAll(a)[1..];
        assert UpperAll(b[1..]) == UpperAll(b)[1..];
      }
    } else if a != [] || b != [] {
      assert |UpperAll(a)| != |UpperAll(b)|;
    }
  }

  /** Every string equals itself ignoring case. */
  lemma {:induction false} EqualsIgnoreCaseReflexive(a: string)
    ensures EqualsIgnoreCase(a, a)
  {
    if a != [] {
      EqualsIgnoreCaseReflexive(a[1..]);
    }
  }

  /** Ignoring case is symmetric. */
  lemma {:induction false} EqualsIgnoreCaseSymmetric(a: string, b: string)
    requires EqualsIgnoreCase(a, b)
    ensures EqualsIgnoreCase(b, a)
  {
    if a != [] {
      EqualsIgnoreCaseSymmetric(a[1..], b[1..]);
    }
  }
}
