/** The Python `str` methods the config reader relies on. */
module PyStr {

  /** `s.startswith(p)`. */
  predicate StartsWith(s: string, p: string) {
    |p| <= |s| && s[..|p|] == p
  }

  /** `s.endswith(p)`. */
  predicate EndsWith(s: string, p: string) {
    |p| <= |s| && s[|s| - |p|..] == p
  }

  /** `pat` stands in `s` at position `k`. */
  predicate OccursAt(s: string, pat: string, k: int) {
    0 <= k && k + |pat| <= |s| && s[k..k + |pat|] == pat
  }

  /** `pat in s`. */
  predicate Occurs(s: string, pat: string) {
    exists k :: 0 <= k <= |s| - |pat| && OccursAt(s, pat, k)
  }

  /** Past a position where `pat` does not start, the occurrences of `pat`
      are those of the rest of the string. */
  lemma OccursInTail(s: string, pat: string)
    requires s != [] && !OccursAt(s, pat, 0)
    ensures Occurs(s, pat) <==> Occurs(s[1..], pat)
  {
    if Occurs(s, pat) {
      var k :| 0 <= k <= |s| - |pat| && OccursAt(s, pat, k);
      assert s[1..][k - 1..k - 1 + |pat|] == s[k..k + |pat|];
      assert OccursAt(s[1..], pat, k - 1);
    }
    if Occurs(s[1..], pat) {
      var k :| 0 <= k <= |s[1..]| - |pat| && OccursAt(s[1..], pat, k);
      assert s[k + 1..k + 1 + |pat|] == s[1..][k..k + |pat|];
      assert OccursAt(s, pat, k + 1);
    }
  }

  /** `s.replace(pat, '')`: scanning left to right, every occurrence of `pat`
      that does not overlap an earlier removed one is dropped.  The string is
      left as it is exactly when `pat` does not occur in it, and otherwise
      loses at least one copy of `pat`. */
  function RemoveOccurrences(s: string, pat: string): (r: string)
    requires pat != []
    ensures |r| <= |s|
    ensures r == s <==> !Occurs(s, pat)
    ensures Occurs(s, pat) ==> |r| <= |s| - |pat|
    ensures StartsWith(s, pat) ==> r == RemoveOccurrences(s[|pat|..], pat)
    decreases |s|
  {
    if |s| < |pat| then
      s
    else if s[..|pat|] == pat then
      assert OccursAt(s, pat, 0);
      RemoveOccurrences(s[|pat|..], pat)
    else
      OccursInTail(s, pat);
      var rest := RemoveOccurrences(s[1..], pat);
      assert s == [s[0]] + s[1..];
      assert [s[0]] + rest == s ==> rest == s[1..];
      [s[0]] + rest
  }

  /** Text that cannot start an occurrence is copied through unchanged. */
  lemma {:induction false} RemoveOccurrencesKeepsPrefix(s: string, t: string, pat: string)
    requires pat != [] && pat[0] !in s
    ensures RemoveOccurrences(s + t, pat) == s + RemoveOccurrences(t, pat)
    decreases |s|
  {
    if s != [] {
      var st := s + t;
      assert st[0] == s[0];
      if |st| >= |pat| {
        assert st[..|pat|] != pat;
      }
      assert st[1..] == s[1..] + t;
      assert RemoveOccurrences(st, pat) == [s[0]] + RemoveOccurrences(s[1..] + t, pat);
      RemoveOccurrencesKeepsPrefix(s[1..], t, pat);
      assert s == [s[0]] + s[1..];
    } else {
      assert s + t == t;
    }
  }

  /** The pattern itself is removed entirely. */
  lemma RemoveOccurrencesOfPattern(pat: string)
    requires pat != []
    ensures RemoveOccurrences(pat, pat) == []
  {
    assert pat[..|pat|] == pat;
    assert pat[|pat|..] == [];
  }

  /** Two back-to-back copies of the pattern are both removed. */
  lemma RemoveOccurrencesOfRepeatedPattern(pat: string)
    requires pat != []
    ensures RemoveOccurrences(pat + pat, pat) == []
  {
    assert (pat + pat)[..|pat|] == pat;
    assert (pat + pat)[|pat|..] == pat;
    RemoveOccurrencesOfPattern(pat);
  }

  /** A character missing from both parts is missing from their concatenation. */
  lemma NotInConcat(a: string, b: string, c: char)
    requires c !in a && c !in b
    ensures c !in a + b
  {
    assert forall x :: x in a + b ==> x in a || x in b;
  }
}
