/**
  Removing runs of characters of one class from the ends of a string.
  Both the slash trimming of the base path and JavaScript's `trim` are
  instances of this one concept, with different character classes.
 */
module Strip {

  /** Every character of `s` belongs to the class `p`. */
  predicate AllIn(s: string, p: char -> bool) {
    forall i :: 0 <= i < |s| ==> p(s[i])
  }

  /** `s` begins with a character of the class `p`. */
  predicate StartsIn(s: string, p: char -> bool) {
    |s| > 0 && p(s[0])
  }

  /** `s` ends with a character of the class `p`. */
  predicate EndsIn(s: string, p: char -> bool) {
    |s| > 0 && p(s[|s| - 1])
  }

  /** Removes the maximal run of `p`-characters at the end of `s`. */
  function StripEnd(s: string, p: char -> bool): (r: string)
    ensures r <= s
    ensures !EndsIn(r, p)
    ensures AllIn(s[|r|..], p)
    decreases |s|
  {
    if |s| > 0 && p(s[|s| - 1]) then
      var r := StripEnd(s[..|s| - 1], p);
      assert s[|r|..] == s[..|s| - 1][|r|..] + [s[|s| - 1]];
      r
    else
      s
  }

  /** Removes the maximal run of `p`-characters at the start of `s`. */
  function StripStart(s: string, p: char -> bool): (r: string)
    ensures |r| <= |s| && r == s[|s| - |r|..]
    ensures !StartsIn(r, p)
    ensures AllIn(s[..|s| - |r|], p)
    decreases |s|
  {
    if |s| > 0 && p(s[0]) then
      var r := StripStart(s[1..], p);
      assert s[..|s| - |r|] == [s[0]] + s[1..][..|s| - 1 - |r|];
      r
    else
      s
  }

  /** `r` sits in `s` at offset `i` with only `p`-characters before and after it. */
  predicate FramedIn(s: string, i: nat, r: string, p: char -> bool) {
    && i + |r| <= |s| && s[i..i + |r|] == r
    && AllIn(s[..i], p) && AllIn(s[i + |r|..], p)
  }

  /** Removes the maximal runs of `p`-characters at both ends of `s`: what
      is left is a contiguous middle of `s` framed by two runs of `p`. */
  function StripBoth(s: string, p: char -> bool): (r: string)
    ensures !StartsIn(r, p) && !EndsIn(r, p)
    ensures exists i :: FramedIn(s, i, r, p)
  {
    StripBothFrame(s, p);
    StripEnd(StripStart(s, p), p)
  }

  /** The middle left by stripping the start and then the end sits at the
      offset where the leading run stops. */
  lemma StripBothFrame(s: string, p: char -> bool)
    ensures var r := StripEnd(StripStart(s, p), p);
            FramedIn(s, |s| - |StripStart(s, p)|, r, p) && !StartsIn(r, p)
  {
    var t := StripStart(s, p);
    FrameOfSuffix(s, p, t, StripEnd(t, p));
  }

  /** A prefix `r` of a suffix `t` of `s`, with `p`-runs before `t` and after
      `r` in `t`, is framed in `s`; and it starts like `t` does. */
  lemma FrameOfSuffix(s: string, p: char -> bool, t: string, r: string)
    requires |t| <= |s| && t == s[|s| - |t|..] && AllIn(s[..|s| - |t|], p) && !StartsIn(t, p)
    requires r <= t && AllIn(t[|r|..], p)
    ensures FramedIn(s, |s| - |t|, r, p) && !StartsIn(r, p)
  {
    var i := |s| - |t|;
    assert s[i..i + |r|] == t[..|r|] == r;
    assert s[i + |r|..] == t[|r|..];
  }

  /** Two lengths of a leading `p`-run that both stop at a character outside
      the class (or at the end of `s`) are the same length. */
  lemma RunLengthUnique(s: string, p: char -> bool, a: nat, b: nat)
    requires a <= |s| && b <= |s|
    requires forall j :: 0 <= j < a ==> p(s[j])
    requires forall j :: 0 <= j < b ==> p(s[j])
    requires a < |s| ==> !p(s[a])
    requires b < |s| ==> !p(s[b])
    ensures a == b
  {
  }

  /** Only the maximal trailing run satisfies the contract of `StripEnd`. */
  lemma StripEndUnique(s: string, p: char -> bool, r: string)
    requires r <= s && !EndsIn(r, p) && AllIn(s[|r|..], p)
    ensures StripEnd(s, p) == r
  {
    var t := StripEnd(s, p);
    assert forall j :: |t| <= j < |s| ==> p(s[j]) by {
      forall j | |t| <= j < |s| ensures p(s[j]) {
        assert s[|t|..][j - |t|] == s[j];
      }
    }
    assert forall j :: |r| <= j < |s| ==> p(s[j]) by {
      forall j | |r| <= j < |s| ensures p(s[j]) {
        assert s[|r|..][j - |r|] == s[j];
      }
    }
    assert |t| == |r|;
  }

  /** Only the maximal leading run satisfies the contract of `StripStart`. */
  lemma StripStartUnique(s: string, p: char -> bool, r: string)
    requires |r| <= |s| && r == s[|s| - |r|..]
    requires !StartsIn(r, p) && AllIn(s[..|s| - |r|], p)
    ensures StripStart(s, p) == r
  {
    StripStartRun(s, p);
    LeadingRun(s, p, r);
    var t := StripStart(s, p);
    RunLengthUnique(s, p, |s| - |t|, |s| - |r|);
  }

  /** The leading run removed by `StripStart`, restated by absolute index. */
  lemma StripStartRun(s: string, p: char -> bool)
    ensures var t := StripStart(s, p);
            && (forall j :: 0 <= j < |s| - |t| ==> p(s[j]))
            && (|t| > 0 ==> !p(s[|s| - |t|]))
  {
    LeadingRun(s, p, StripStart(s, p));
  }

  /** A suffix `r` of `s` left after a leading run, restated by absolute index. */
  lemma LeadingRun(s: string, p: char -> bool, r: string)
    requires |r| <= |s| && r == s[|s| - |r|..]
    requires !StartsIn(r, p) && AllIn(s[..|s| - |r|], p)
    ensures forall j :: 0 <= j < |s| - |r| ==> p(s[j])
    ensures |r| > 0 ==> !p(s[|s| - |r|])
  {
    forall j | 0 <= j < |s| - |r| ensures p(s[j]) {
      assert s[..|s| - |r|][j] == s[j];
    }
    if |r| > 0 {
      assert r[0] == s[|s| - |r|];
    }
  }

  /** Stripping both ends leaves nothing exactly when every character is in the class. */
  lemma {:induction false} StripBothEmptyIff(s: string, p: char -> bool)
    ensures StripBoth(s, p) == "" <==> AllIn(s, p)
  {
    if AllIn(s, p) {
      assert s[..|s| - 0] == s;
      StripStartUnique(s, p, "");
    }
  }

  /** Any decomposition of `s` into a `p`-run, a middle that neither starts nor
      ends in the class, and a `p`-run determines the result of `StripBoth`. */
  lemma {:induction false} StripBothUnique(s: string, p: char -> bool, i: nat, r: string)
    requires FramedIn(s, i, r, p)
    requires !StartsIn(r, p) && !EndsIn(r, p)
    ensures StripBoth(s, p) == r
  {
    if |r| == 0 {
      EmptyFrameMeansAllIn(s, p, i);
      StripBothEmptyIff(s, p);
    } else {
      var t := s[i..];
      MiddleAfterLeadingRun(s, p, i, r);
      StripStartUnique(s, p, t);
      StripEndUnique(t, p, r);
    }
  }

  /** Two adjacent runs of the class make a string wholly in the class. */
  lemma EmptyFrameMeansAllIn(s: string, p: char -> bool, i: nat)
    requires FramedIn(s, i, "", p)
    ensures AllIn(s, p)
  {
    forall j | 0 <= j < |s| ensures p(s[j]) {
      if j < i { assert s[..i][j] == s[j]; }
      else { assert s[i..][j - i] == s[j]; }
    }
  }

  /** The suffix starting at a non-empty framed middle is what `StripStart`
      leaves, and the middle is what `StripEnd` then leaves of it. */
  lemma MiddleAfterLeadingRun(s: string, p: char -> bool, i: nat, r: string)
    requires FramedIn(s, i, r, p)
    requires |r| > 0 && !StartsIn(r, p)
    ensures var t := s[i..];
            && |t| <= |s| && t == s[|s| - |t|..]
            && !StartsIn(t, p) && AllIn(s[..|s| - |t|], p)
            && r <= t && AllIn(t[|r|..], p)
  {
    var t := s[i..];
    assert s[|s| - |t|..] == t;
    assert s[..|s| - |t|] == s[..i];
    assert t[0] == r[0];
    assert t[..|r|] == r;
    assert t[|r|..] == s[i + |r|..];
  }

  /** Stripping both ends is idempotent. */
  lemma StripBothIdempotent(s: string, p: char -> bool)
    ensures StripBoth(StripBoth(s, p), p) == StripBoth(s, p)
  {
    var r := StripBoth(s, p);
    assert r[0..0 + |r|] == r && r[..0] == "" && r[|r|..] == "";
    assert FramedIn(r, 0, r, p);
    StripBothUnique(r, p, 0, r);
  }
}
