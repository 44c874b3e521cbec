/**
 * Substring and affix tests on strings, with the meaning Python gives to
 * `pat in s` on two str values and to the fnmatch patterns that a recursive
 * glob applies to file names.
 */
module Text {

  /** `pat` occurs in `s` starting at index `i`. */
  predicate OccursAt(s: string, pat: string, i: int)
  {
    0 <= i && i + |pat| <= |s| && s[i..i + |pat|] == pat
  }

  /** Python's `pat in s`: a scan of `s` from the left for an occurrence of `pat`. */
  predicate Contains(s: string, pat: string)
    decreases |s|
  {
    if |pat| > |s| then false
    else if s[..|pat|] == pat then true
    else Contains(s[1..], pat)
  }

  predicate StartsWith(s: string, prefix: string)
  {
    |prefix| <= |s| && s[..|prefix|] == prefix
  }

  predicate EndsWith(s: string, suffix: string)
  {
    |suffix| <= |s| && s[|s| - |suffix|..] == suffix
  }

  /** Dropping the first character moves every later occurrence one place to the left. */
  lemma OccursShift(s: string, pat: string, i: int)
    requires |s| > 0 && i > 0
    ensures OccursAt(s, pat, i) <==> OccursAt(s[1..], pat, i - 1)
  {
    if i + |pat| <= |s| {
      assert s[1..][i - 1..i - 1 + |pat|] == s[i..i + |pat|];
    }
  }

  /** The scan finds `pat` exactly when `pat` occurs somewhere in `s`. */
  lemma {:induction false} ContainsIff(s: string, pat: string)
    ensures Contains(s, pat) <==> exists i :: OccursAt(s, pat, i)
    decreases |s|
  {
    if |pat| > |s| {
      assert forall i :: !OccursAt(s, pat, i);
    } else if s[..|pat|] == pat {
      assert OccursAt(s, pat, 0);
    } else {
      ContainsIff(s[1..], pat);
      forall i | i > 0
        ensures OccursAt(s, pat, i) <==> OccursAt(s[1..], pat, i - 1)
      {
        OccursShift(s, pat, i);
      }
      if Contains(s[1..], pat) {
        var j :| OccursAt(s[1..], pat, j);
        assert OccursAt(s, pat, j + 1);
      }
    }
  }

  /** A pattern found in a prefix of `s` is found in `s`: containment is monotone under extension. */
  lemma ContainsExtends(p: string, s: string, pat: string)
    requires StartsWith(s, p) && Contains(p, pat)
    ensures Contains(s, pat)
  {
    ContainsIff(p, pat);
    var i :| OccursAt(p, pat, i);
    assert s[i..i + |pat|] == p[i..i + |pat|];
    assert OccursAt(s, pat, i);
    ContainsIff(s, pat);
  }
}
