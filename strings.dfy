/**
 * The two Python string operations the protocol depends on: the membership
 * test `sub in s` and `s.replace(pat, "")`, both on `string`.
 */
module Strings {

  /** `pat` occurs in `s` starting at index `i`. */
  ghost predicate MatchAt(s: string, pat: string, i: nat) {
    i + |pat| <= |s| && s[i..i + |pat|] == pat
  }

  /** Python's `pat in s`, computed by scanning left to right. */
  predicate Contains(s: string, pat: string)
    decreases |s|
  {
    if |s| < |pat| then false
    else if s[..|pat|] == pat then true
    else |s| > 0 && Contains(s[1..], pat)
  }

  /** An occurrence at any index is found by the scan. */
  lemma {:induction false} MatchAtContains(s: string, pat: string, i: nat)
    requires pat != ""
    requires MatchAt(s, pat, i)
    ensures Contains(s, pat)
    decreases i
  {
    if i == 0 {
      assert s[0..|pat|] == s[..|pat|];
    } else if s[..|pat|] != pat {
      assert s[1..][i - 1..i - 1 + |pat|] == s[i..i + |pat|];
      MatchAtContains(s[1..], pat, i - 1);
    }
  }

  /** When the scan succeeds, it names an index where the pattern occurs. */
  lemma {:induction false} ContainsMatchAt(s: string, pat: string) returns (i: nat)
    requires pat != ""
    requires Contains(s, pat)
    ensures MatchAt(s, pat, i)
    decreases |s|
  {
    if s[..|pat|] == pat {
      i := 0;
    } else {
      var j := ContainsMatchAt(s[1..], pat);
      assert s[j + 1..j + 1 + |pat|] == s[1..][j..j + |pat|];
      i := j + 1;
    }
  }

  /** `Contains` agrees with the definition by an index where the pattern occurs. */
  lemma ContainsIff(s: string, pat: string)
    requires pat != ""
    ensures Contains(s, pat) <==> exists i: nat :: MatchAt(s, pat, i)
  {
    forall i: nat | MatchAt(s, pat, i) ensures Contains(s, pat) {
      MatchAtContains(s, pat, i);
    }
    if Contains(s, pat) {
      var i := ContainsMatchAt(s, pat);
    }
  }

  /** Whatever surrounds it, an occurrence of `pat` makes `Contains` true. */
  lemma ContainsInfix(pre: string, pat: string, post: string)
    requires pat != ""
    ensures Contains(pre + pat + post, pat)
  {
    var s := pre + pat + post;
    assert s[|pre|..|pre| + |pat|] == pat;
    MatchAtContains(s, pat, |pre|);
  }

  /**
   * No occurrence exists when the `j`-th character of `pat` is missing from
   * every place an occurrence would have to put it.
   */
  lemma {:induction false} NoMatchWithout(s: string, pat: string, j: nat)
    requires j < |pat|
    requires |s| < |pat| || pat[j] !in s[j..|s| - |pat| + j + 1]
    ensures !Contains(s, pat)
    decreases |s|
  {
    if |s| >= |pat| {
      assert s[..|pat|][j] == s[j] == s[j..|s| - |pat| + j + 1][0];
      if |s| > |pat| {
        assert s[1..][j..|s| - |pat| + j] == s[j..|s| - |pat| + j + 1][1..];
      }
      NoMatchWithout(s[1..], pat, j);
    }
  }

  /** Python's `s.replace(pat, "")`: every non-overlapping occurrence, found from the left, is deleted. */
  function RemoveAll(s: string, pat: string): string
    requires pat != ""
    decreases |s|
  {
    if |s| < |pat| then s
    else if s[..|pat|] == pat then RemoveAll(s[|pat|..], pat)
    else [s[0]] + RemoveAll(s[1..], pat)
  }

  /** Python's `s.count(pat)`: the number of non-overlapping occurrences, found from the left. */
  function Count(s: string, pat: string): nat
    requires pat != ""
    decreases |s|
  {
    if |s| < |pat| then 0
    else if s[..|pat|] == pat then 1 + Count(s[|pat|..], pat)
    else Count(s[1..], pat)
  }

  /** When the pattern does not occur, the replacement changes nothing. */
  lemma {:induction false} RemoveAllAbsent(s: string, pat: string)
    requires pat != ""
    requires !Contains(s, pat)
    ensures RemoveAll(s, pat) == s
    decreases |s|
  {
    if |s| >= |pat| {
      RemoveAllAbsent(s[1..], pat);
      assert [s[0]] + s[1..] == s;
    }
  }

  /** The replacement shortens `s` by one pattern length per counted occurrence, as in Python. */
  lemma {:induction false} RemoveAllLength(s: string, pat: string)
    requires pat != ""
    ensures |RemoveAll(s, pat)| == |s| - |pat| * Count(s, pat)
    decreases |s|
  {
    if |s| < |pat| {
    } else if s[..|pat|] == pat {
      RemoveAllLength(s[|pat|..], pat);
      var c := Count(s[|pat|..], pat);
      assert |pat| * (1 + c) == |pat| + |pat| * c;
    } else {
      RemoveAllLength(s[1..], pat);
    }
  }

  /** A leading occurrence of the pattern is simply dropped. */
  lemma RemoveAllLeading(pat: string, t: string)
    requires pat != ""
    ensures RemoveAll(pat + t, pat) == RemoveAll(t, pat)
  {
    var s := pat + t;
    assert s[..|pat|] == pat;
    assert s[|pat|..] == t;
  }

  /** Deletion can join the two halves of a new occurrence: the result may still contain the pattern. */
  lemma RemoveAllMayLeavePattern()
    ensures RemoveAll("OOK|K|", "OK|") == "OK|"
    ensures Contains(RemoveAll("OOK|K|", "OK|"), "OK|")
  {
    var s := "OOK|K|";
    assert s[..3][1] == 'O';
    assert s[1..] == "OK|K|";
    assert s[1..][..3] == "OK|";
    assert s[1..][3..] == "K|";
    assert RemoveAll("K|", "OK|") == "K|";
    assert RemoveAll(s, "OK|") == "O" + "K|";
    assert "O" + "K|" == "OK|";
    assert ("OK|")[..3] == "OK|";
  }
}
