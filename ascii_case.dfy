/** Letter case of currency codes.  The client sends `from_currency.upper()`
    and `to_currency.upper()`, and `main` builds the file name from the same
    upper-cased codes.  The model maps the ASCII letters `a`..`z` to `A`..`Z`
    and leaves every other character as it is. */
module AsciiCase {

  predicate IsLower(c: char) { 'a' <= c <= 'z' }

  function UpperChar(c: char): char {
    if IsLower(c) then (c as int - 32) as char else c
  }

  /** Two characters are the same letter, or the same non-letter. */
  predicate SameIgnoringCase(a: char, b: char) {
    || a == b
    || (IsLower(a) && b as int == a as int - 32)
    || (IsLower(b) && a as int == b as int - 32)
  }

  predicate EqualIgnoringCase(a: string, b: string) {
    |a| == |b| && forall i :: 0 <= i < |a| ==> SameIgnoringCase(a[i], b[i])
  }

  predicate HasNoLower(s: string) {
    forall i :: 0 <= i < |s| ==> !IsLower(s[i])
  }

  /** `str.upper()`: a string equal to `s` up to case, with no lower-case
      letter left. */
  function Upper(s: string): (r: string)
    ensures EqualIgnoringCase(s, r) && HasNoLower(r)
  {
    if s == [] then [] else [UpperChar(s[0])] + Upper(s[1..])
  }

  lemma {:induction false} UpperAt(s: string, i: int)
    requires 0 <= i < |s|
    ensures Upper(s)[i] == UpperChar(s[i])
  {
    if i > 0 {
      UpperAt(s[1..], i - 1);
    }
  }

  /** The contract of `Upper` determines its result: any string equal to `s`
      up to case and free of lower-case letters is `Upper(s)`. */
  lemma UpperUnique(s: string, r: string)
    requires EqualIgnoringCase(s, r) && HasNoLower(r)
    ensures r == Upper(s)
  {
    forall i | 0 <= i < |s|
      ensures r[i] == Upper(s)[i]
    {
      UpperAt(s, i);
    }
  }

  /** A code typed without lower-case letters is sent as typed, and only
      such a code is. */
  lemma UpperKeepsUpperCase(s: string)
    ensures Upper(s) == s <==> HasNoLower(s)
  {
    if HasNoLower(s) {
      assert EqualIgnoringCase(s, s);
      UpperUnique(s, s);
    }
  }

  lemma UpperCharEqualIff(x: char, y: char)
    ensures UpperChar(x) == UpperChar(y) <==> SameIgnoringCase(x, y)
  {
  }

  /** Upper-casing identifies two strings exactly when they differ only in
      the case of their letters. */
  lemma UpperEqualIff(a: string, b: string)
    ensures Upper(a) == Upper(b) <==> EqualIgnoringCase(a, b)
  {
    if Upper(a) == Upper(b) {
      forall i | 0 <= i < |a|
        ensures SameIgnoringCase(a[i], b[i])
      {
        UpperAt(a, i);
        UpperAt(b, i);
        UpperCharEqualIff(a[i], b[i]);
      }
    }
    if EqualIgnoringCase(a, b) {
      forall i | 0 <= i < |a|
        ensures Upper(a)[i] == Upper(b)[i]
      {
        UpperAt(a, i);
        UpperAt(b, i);
        UpperCharEqualIff(a[i], b[i]);
      }
    }
  }
}
