/** The two string tests of Go's `strings` package that the classifier relies on.
    Go compares bytes; here a string is a sequence of characters, and containment
    is the same exact, case-sensitive substring test. */
module Strings {

  /** `strings.HasPrefix(s, prefix)` */
  predicate HasPrefix(s: string, prefix: string)
  {
    |prefix| <= |s| && s[..|prefix|] == prefix
  }

  /** `strings.Contains(s, sub)`: `sub` is a prefix of some suffix of `s`. */
  predicate Contains(s: string, sub: string)
    decreases |s|
  {
    HasPrefix(s, sub) || (|s| > 0 && Contains(s[1..], sub))
  }

  /** `sub` occurs in `s` starting at offset `i` */
  ghost predicate OccursAt(s: string, sub: string, i: int)
  {
    0 <= i && i + |sub| <= |s| && s[i..i + |sub|] == sub
  }

  /** An occurrence at any offset makes the recursive test succeed. */
  lemma {:induction false} OccursImpliesContains(s: string, sub: string, i: int)
    requires OccursAt(s, sub, i)
    ensures Contains(s, sub)
    decreases i
  {
    if i > 0 {
      assert s[1..][i - 1..i - 1 + |sub|] == s[i..i + |sub|];
      OccursImpliesContains(s[1..], sub, i - 1);
    }
  }

  /** The recursive test succeeds only at a real occurrence. */
  lemma {:induction false} ContainsImpliesOccurs(s: string, sub: string) returns (i: int)
    requires Contains(s, sub)
    ensures OccursAt(s, sub, i)
    decreases |s|
  {
    if HasPrefix(s, sub) {
      i := 0;
    } else {
      var j := ContainsImpliesOccurs(s[1..], sub);
      assert s[j + 1..j + 1 + |sub|] == s[1..][j..j + |sub|];
      i := j + 1;
    }
  }

  /** The recursive test agrees with the textbook definition of a substring. */
  lemma ContainsIffOccurs(s: string, sub: string)
    ensures Contains(s, sub) <==> exists i :: OccursAt(s, sub, i)
  {
    if Contains(s, sub) {
      var i := ContainsImpliesOccurs(s, sub);
    }
    if i :| OccursAt(s, sub, i) {
      OccursImpliesContains(s, sub, i);
    }
  }

  /** A prefix is in particular contained. */
  lemma PrefixIsContained(s: string, prefix: string)
    requires HasPrefix(s, prefix)
    ensures Contains(s, prefix)
  {
  }
}
