/** ASCII stand-ins for the two Python string operations the frame-name
    handling relies on: `str.upper` and `str.startswith`. Each is paired with
    a character-by-character "ignoring case" reference definition and the
    lemmas that connect the two. */
module Text {

  /** Upper-case form of one character; only the ASCII letters a-z change. */
  function UpperChar(c: char): char
  {
    if 'a' <= c <= 'z' then (c as int - 32) as char else c
  }

  /** `s.upper()`, restricted to ASCII: every character is upper-cased on its own. */
  function Upper(s: string): (u: string)
    ensures IsUpperCase(u)
    ensures EqualsIgnoringCase(u, s)
  {
    seq(|s|, i requires 0 <= i < |s| => UpperChar(s[i]))
  }

  /** No character of `s` is a lower-case ASCII letter. */
  predicate IsUpperCase(s: string)
  {
    forall i :: 0 <= i < |s| ==> !('a' <= s[i] <= 'z')
  }

  /** `s.startswith(prefix)`. */
  predicate StartsWith(s: string, prefix: string)
    ensures StartsWith(s, prefix) <==> exists rest :: s == prefix + rest
  {
    if |prefix| <= |s| && s[..|prefix|] == prefix then
      assert s == prefix + s[|prefix|..];
      true
    else
      false
  }

  /** `a` and `b` spell the same word when letter case is disregarded. */
  predicate EqualsIgnoringCase(a: string, b: string)
  {
    |a| == |b| && forall i :: 0 <= i < |a| ==> UpperChar(a[i]) == UpperChar(b[i])
  }

  /** `s` begins with `prefix` when letter case is disregarded. */
  predicate StartsWithIgnoringCase(s: string, prefix: string)
  {
    |prefix| <= |s| && forall i :: 0 <= i < |prefix| ==> UpperChar(s[i]) == UpperChar(prefix[i])
  }

  /** Upper-casing keeps the length, yields upper case, and is idempotent. */
  lemma UpperProperties(s: string)
    ensures |Upper(s)| == |s|
    ensures IsUpperCase(Upper(s))
    ensures Upper(Upper(s)) == Upper(s)
  {
  }

  /** Comparing upper-case forms is exactly case-insensitive comparison. */
  lemma SameUpperIffEqualsIgnoringCase(a: string, b: string)
    ensures Upper(a) == Upper(b) <==> EqualsIgnoringCase(a, b)
  {
    if EqualsIgnoringCase(a, b) {
      assert forall i :: 0 <= i < |a| ==> Upper(a)[i] == Upper(b)[i];
    }
    if Upper(a) == Upper(b) {
      assert |a| == |Upper(a)| == |Upper(b)| == |b|;
      forall i | 0 <= i < |a|
        ensures UpperChar(a[i]) == UpperChar(b[i])
      {
        assert Upper(a)[i] == Upper(b)[i];
      }
    }
  }

  /** A prefix test on upper-case forms is exactly a case-insensitive prefix test. */
  lemma UpperPrefixIffStartsWithIgnoringCase(s: string, prefix: string)
    ensures StartsWith(Upper(s), Upper(prefix)) <==> StartsWithIgnoringCase(s, prefix)
  {
    if StartsWith(Upper(s), Upper(prefix)) {
      forall i | 0 <= i < |prefix|
        ensures UpperChar(s[i]) == UpperChar(prefix[i])
      {
        assert Upper(s)[..|prefix|][i] == Upper(prefix)[i];
      }
    }
    if StartsWithIgnoringCase(s, prefix) {
      assert Upper(s)[..|prefix|] == Upper(prefix);
    }
  }
}
