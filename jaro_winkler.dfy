/** `Glove.jaroWinklerDistance` (Glove.js:97-164) as the source runs it:
    two flag arrays filled in place by a windowed greedy match, a lockstep
    walk that counts transpositions, and a capped common-prefix scan. Each
    of the three loops is its own method here; JaroWinklerDistance runs them
    in the source's order. */
module StringDistance {
  import opened JaroWinklerSpec

  /** The matching loop (Glove.js:116-127): for each position of s1, claim
      the first unclaimed equal character of s2 inside the window. */
  method MatchPhase(s1: string, s2: string, s1Matches: array<bool>, s2Matches: array<bool>)
    returns (matchCount: nat)
    requires s1Matches != s2Matches
    requires s1Matches.Length == |s1| && s2Matches.Length == |s2|
    requires forall k :: 0 <= k < s1Matches.Length ==> !s1Matches[k]
    requires forall k :: 0 <= k < s2Matches.Length ==> !s2Matches[k]
    modifies s1Matches, s2Matches
    ensures MatchUpTo(s1, s2, |s1|) == MatchState(s1Matches[..], s2Matches[..], matchCount)
  {
    var len1, len2 := |s1|, |s2|;
    matchCount := 0;
    assert s1Matches[..] == seq(len1, _ => false) && s2Matches[..] == seq(len2, _ => false);
    var i := 0;
    while i < len1
      invariant 0 <= i <= len1
      invariant MatchUpTo(s1, s2, i) == MatchState(s1Matches[..], s2Matches[..], matchCount)
    {
      matchCount := MatchOne(s1, s2, i, s1Matches, s2Matches, matchCount);
      i := i + 1;
    }
  }

  /** One pass of the inner loop (Glove.js:118-126): scan the window of
      position i and claim the first unclaimed equal character of s2,
      counting the match. The new flags and count are one step of the
      matching phase. */
  method MatchOne(s1: string, s2: string, i: nat, s1Matches: array<bool>, s2Matches: array<bool>,
                  matchCount: nat)
    returns (newCount: nat)
    requires s1Matches != s2Matches
    requires i < |s1| == s1Matches.Length && s2Matches.Length == |s2|
    modifies s1Matches, s2Matches
    ensures MatchRow(s1, s2, MatchState(old(s1Matches[..]), old(s2Matches[..]), matchCount), i)
         == MatchState(s1Matches[..], s2Matches[..], newCount)
  {
    var maxDistance := MaxDistance(|s1|, |s2|);
    var lo := WindowStart(i, maxDistance);
    var hi := WindowEnd(i, maxDistance, |s2|);
    var j := lo;
    while j < hi
      invariant lo <= j
      invariant FirstFree(s1[i], s2, s2Matches[..], j, hi) == FirstFree(s1[i], s2, s2Matches[..], lo, hi)
    {
      if s1[i] == s2[j] && !s2Matches[j] {
        s1Matches[i] := true;
        s2Matches[j] := true;
        return matchCount + 1;
      }
      j := j + 1;
    }
    return matchCount;
  }

  /** The transposition walk (Glove.js:135-146): for each matched position
      of s1, skip to the next matched position k of s2 and count a
      transposition when the two characters differ. k never runs past s2,
      and the count is the number of ranks at which the matched characters
      of the two strings differ. */
  method CountTranspositions(s1: string, s2: string, s1Matches: array<bool>, s2Matches: array<bool>)
    returns (transpositionCount: nat)
    requires s1Matches.Length == |s1| && s2Matches.Length == |s2|
    requires Count(s1Matches[..], |s1|) == Count(s2Matches[..], |s2|)
    ensures transpositionCount
         == Mismatches(Matched(s1, s1Matches[..], |s1|), Matched(s2, s2Matches[..], |s2|))
    ensures transpositionCount <= Count(s1Matches[..], |s1|)
  {
    var len1, len2 := |s1|, |s2|;
    ghost var f1, f2 := s1Matches[..], s2Matches[..];
    transpositionCount := 0;
    var k := 0;
    var i := 0;
    while i < len1
      invariant 0 <= i <= len1 && 0 <= k <= len2
      invariant Count(f2, k) == Count(f1, i)
      invariant transpositionCount == Mismatches(Matched(s1, f1, i), Matched(s2, f2, k))
    {
      ghost var walked1, walked2 := Matched(s1, f1, i), Matched(s2, f2, k);
      if s1Matches[i] {
        CountMonotone(f1, i + 1, len1);
        while !s2Matches[k]
          invariant k < len2
          invariant Count(f2, k) == Count(f1, i) < Count(f2, len2)
          invariant Matched(s2, f2, k) == walked2
          decreases len2 - k
        {
          k := k + 1;
        }
        assert Matched(s1, f1, i + 1) == walked1 + [s1[i]];
        assert Matched(s2, f2, k + 1) == walked2 + [s2[k]];
        MismatchesSnoc(walked1, walked2, s1[i], s2[k]);
        if s1[i] != s2[k] {
          transpositionCount := transpositionCount + 1;
        }
        k := k + 1;
      } else {
        assert Matched(s1, f1, i + 1) == walked1;
      }
      i := i + 1;
    }
    MatchedTail(s2, f2, k, len2);
  }

  /** The prefix scan (Glove.js:152-160): the length of the common prefix,
      capped at 4 and at the shorter length. */
  method CommonPrefix(s1: string, s2: string) returns (commonPrefix: nat)
    ensures commonPrefix <= 4 && commonPrefix <= |s1| && commonPrefix <= |s2|
    ensures s1[..commonPrefix] == s2[..commonPrefix]
    ensures commonPrefix < PrefixCap(s1, s2) ==> s1[commonPrefix] != s2[commonPrefix]
    ensures commonPrefix == SharedPrefixFrom(s1, s2, PrefixCap(s1, s2), 0)
  {
    var prefixLength := Min(4, Min(|s1|, |s2|));
    commonPrefix := 0;
    var i := 0;
    while i < prefixLength
      invariant 0 <= i <= prefixLength && commonPrefix == i
      invariant SharedPrefixFrom(s1, s2, prefixLength, i) == SharedPrefixFrom(s1, s2, prefixLength, 0)
    {
      if s1[i] == s2[i] {
        commonPrefix := commonPrefix + 1;
      } else {
        break;
      }
      i := i + 1;
    }
    SharedPrefixIsCommon(s1, s2, prefixLength, 0);
  }

  /** Jaro-Winkler similarity of s1 and s2: the score that
      JaroWinklerSpec.JaroWinkler defines, always in [0, 1]. */
  method JaroWinklerDistance(s1: string, s2: string) returns (score: real)
    ensures score == JaroWinkler(s1, s2)
    ensures 0.0 <= score <= 1.0
  {
    var len1, len2 := |s1|, |s2|;
    var s1Matches := new bool[len1](_ => false);
    var s2Matches := new bool[len2](_ => false);
    var matchCount := MatchPhase(s1, s2, s1Matches, s2Matches);
    MatchCountBound(s1, s2);
    ScoreBounds(s1, s2);
    if matchCount == 0 {
      return 0.0;
    }
    var transpositionCount := CountTranspositions(s1, s2, s1Matches, s2Matches);
    var similarity := Jaro(matchCount, transpositionCount, len1, len2);
    var commonPrefix := CommonPrefix(s1, s2);
    score := Winkler(similarity, commonPrefix);
  }
}
