/** Jaro-Winkler similarity as `Glove.jaroWinklerDistance` computes it
    (Glove.js:97-164), stated as functions over strings, with the facts the
    algorithm relies on proved as lemmas. The imperative version, over two
    flag arrays, is in module StringDistance and is proved equal to
    `JaroWinkler` below. Scores are exact reals, not IEEE doubles. */
module JaroWinklerSpec {
  import opened Wrappers

  function Min(a: int, b: int): int { if a < b then a else b }

  function Max(a: int, b: int): int { if a < b then b else a }

  /** The match window radius: half the longer length rounded down, minus
      one. It is -1 when neither string is longer than one character. */
  function MaxDistance(len1: nat, len2: nat): (d: int)
    ensures -1 <= d
    ensures 2 * (d + 1) <= Max(len1, len2) < 2 * (d + 2)
  {
    Max(len1, len2) / 2 - 1
  }

  /** First position of s2 searched for position i of s1. */
  function WindowStart(i: nat, d: int): nat
  {
    Max(0, i - d)
  }

  /** One past the last position of s2 searched for position i of s1. */
  function WindowEnd(i: nat, d: int, len2: nat): int
  {
    Min(len2, i + d + 1)
  }

  /** The first position j in [lo, hi) with s2[j] == c that is not claimed
      yet: the position the inner matching loop stops at. */
  function FirstFree(c: char, s2: string, claimed: seq<bool>, lo: int, hi: int): (r: Option<nat>)
    requires 0 <= lo && hi <= |s2| == |claimed|
    decreases hi - lo
    ensures r.Some? ==> lo <= r.value < hi && s2[r.value] == c && !claimed[r.value]
  {
    if lo >= hi then None
    else if s2[lo] == c && !claimed[lo] then Some(lo)
    else FirstFree(c, s2, claimed, lo + 1, hi)
  }

  /** The variables of the matching phase: both flag arrays and matchCount. */
  datatype MatchState = MatchState(s1Matches: seq<bool>, s2Matches: seq<bool>, matchCount: nat)

  /** One iteration of the matching loop, for position i of s1: claim the
      first free equal character of s2 inside the window, if any. */
  function MatchRow(s1: string, s2: string, st: MatchState, i: nat): (r: MatchState)
    requires i < |s1| == |st.s1Matches| && |s2| == |st.s2Matches|
    ensures |r.s1Matches| == |s1| && |r.s2Matches| == |s2|
  {
    var d := MaxDistance(|s1|, |s2|);
    match FirstFree(s1[i], s2, st.s2Matches, WindowStart(i, d), WindowEnd(i, d, |s2|))
    case None => st
    case Some(j) => MatchState(st.s1Matches[i := true], st.s2Matches[j := true], st.matchCount + 1)
  }

  /** The matching state after the first n iterations of the matching loop. */
  function MatchUpTo(s1: string, s2: string, n: nat): (st: MatchState)
    requires n <= |s1|
    ensures |st.s1Matches| == |s1| && |st.s2Matches| == |s2|
  {
    if n == 0 then MatchState(seq(|s1|, _ => false), seq(|s2|, _ => false), 0)
    else MatchRow(s1, s2, MatchUpTo(s1, s2, n - 1), n - 1)
  }

  /** The number of set flags among the first n. */
  function Count(f: seq<bool>, n: nat): (c: nat)
    requires n <= |f|
    ensures c <= n
  {
    if n == 0 then 0 else Count(f, n - 1) + (if f[n - 1] then 1 else 0)
  }

  /** The characters of s at the flagged positions among the first n, in order. */
  function Matched(s: string, f: seq<bool>, n: nat): (m: string)
    requires n <= |s| == |f|
    ensures |m| == Count(f, n)
  {
    if n == 0 then [] else Matched(s, f, n - 1) + (if f[n - 1] then [s[n - 1]] else [])
  }

  /** The number of ranks at which two equally long strings differ. */
  function Mismatches(a: string, b: string): (n: nat)
    requires |a| == |b|
    ensures n <= |a|
  {
    if |a| == 0 then 0
    else Mismatches(a[..|a| - 1], b[..|b| - 1]) + (if a[|a| - 1] != b[|b| - 1] then 1 else 0)
  }

  /** The length of the common prefix of s1 and s2, scanning from position i
      and stopping at cap. */
  function SharedPrefixFrom(s1: string, s2: string, cap: nat, i: nat): (p: nat)
    requires i <= cap <= Min(|s1|, |s2|)
    decreases cap - i
    ensures i <= p <= cap
  {
    if i < cap && s1[i] == s2[i] then SharedPrefixFrom(s1, s2, cap, i + 1) else i
  }

  /** The scan stops at the first position where the strings differ, or at cap. */
  lemma {:induction false} SharedPrefixIsCommon(s1: string, s2: string, cap: nat, i: nat)
    requires i <= cap <= Min(|s1|, |s2|)
    decreases cap - i
    ensures var p := SharedPrefixFrom(s1, s2, cap, i);
      && (forall k :: i <= k < p ==> s1[k] == s2[k])
      && (p < cap ==> s1[p] != s2[p])
  {
    if i < cap && s1[i] == s2[i] {
      SharedPrefixIsCommon(s1, s2, cap, i + 1);
    }
  }

  /** The prefix scan is capped at 4 and at the shorter length. */
  function PrefixCap(s1: string, s2: string): nat
  {
    Min(4, Min(|s1|, |s2|))
  }

  /** The Jaro similarity from m matches and t transposition mismatches. */
  function Jaro(m: nat, t: nat, len1: nat, len2: nat): real
    requires 0 < m && 0 < len1 && 0 < len2
  {
    (m as real / len1 as real + m as real / len2 as real + (m as real - t as real / 2.0) / m as real) / 3.0
  }

  /** The Winkler boost for a shared prefix of the given length. */
  function Winkler(jaro: real, prefix: nat): real
  {
    jaro + prefix as real * 0.1 * (1.0 - jaro)
  }

  /** The transposition count: matched characters of s1 and of s2 compared
      rank by rank. */
  function Transpositions(s1: string, s2: string): (t: nat)
    ensures t <= MatchUpTo(s1, s2, |s1|).matchCount
  {
    var st := MatchUpTo(s1, s2, |s1|);
    MatchCountBound(s1, s2);
    Mismatches(Matched(s1, st.s1Matches, |s1|), Matched(s2, st.s2Matches, |s2|))
  }

  /** The score `Glove.jaroWinklerDistance(s1, s2)` returns. */
  function JaroWinkler(s1: string, s2: string): real
  {
    var st := MatchUpTo(s1, s2, |s1|);
    if st.matchCount == 0 then 0.0
    else
      MatchCountBound(s1, s2);
      Winkler(Jaro(st.matchCount, Transpositions(s1, s2), |s1|, |s2|),
              SharedPrefixFrom(s1, s2, PrefixCap(s1, s2), 0))
  }

  // ---------------------------------------------------------------------
  // Counting flags

  lemma {:induction false} CountMonotone(f: seq<bool>, a: nat, b: nat)
    requires a <= b <= |f|
    ensures Count(f, a) <= Count(f, b)
    decreases b - a
  {
    if a < b {
      CountMonotone(f, a, b - 1);
    }
  }

  /** Once the first k flags hold every set flag, the rest adds no character. */
  lemma {:induction false} MatchedTail(s: string, f: seq<bool>, k: nat, n: nat)
    requires k <= n <= |s| == |f|
    requires Count(f, k) == Count(f, |f|)
    ensures Matched(s, f, n) == Matched(s, f, k)
    decreases n - k
  {
    if k < n {
      CountMonotone(f, k, n - 1);
      CountMonotone(f, n, |f|);
      MatchedTail(s, f, k, n - 1);
    }
  }

  lemma {:induction false} CountNone(f: seq<bool>, n: nat)
    requires n <= |f|
    requires forall k :: 0 <= k < |f| ==> !f[k]
    ensures Count(f, n) == 0
  {
    if n > 0 {
      CountNone(f, n - 1);
    }
  }

  /** Setting one clear flag raises the count by one if it is among the first n. */
  lemma {:induction false} CountSet(f: seq<bool>, j: nat, n: nat)
    requires j < |f| && !f[j] && n <= |f|
    ensures Count(f[j := true], n) == Count(f, n) + (if j < n then 1 else 0)
  {
    if n > 0 {
      CountSet(f, j, n - 1);
    }
  }

  /** The multiset of matched characters grows by the n-th one, if flagged. */
  lemma MatchedStep(s: string, f: seq<bool>, n: nat)
    requires 0 < n <= |s| == |f|
    ensures multiset(Matched(s, f, n))
         == multiset(Matched(s, f, n - 1)) + (if f[n - 1] then multiset{s[n - 1]} else multiset{})
  {
    var tail := if f[n - 1] then [s[n - 1]] else [];
    assert Matched(s, f, n) == Matched(s, f, n - 1) + tail;
    assert multiset(tail) == (if f[n - 1] then multiset{s[n - 1]} else multiset{});
  }

  /** Setting one clear flag adds exactly that character to the matched ones. */
  lemma {:induction false} MatchedSet(s: string, f: seq<bool>, j: nat, n: nat)
    requires j < |f| == |s| && !f[j] && n <= |f|
    ensures multiset(Matched(s, f[j := true], n))
         == multiset(Matched(s, f, n)) + (if j < n then multiset{s[j]} else multiset{})
  {
    if n > 0 {
      var g := f[j := true];
      MatchedSet(s, f, j, n - 1);
      MatchedStep(s, f, n);
      MatchedStep(s, g, n);
      var before, after := multiset(Matched(s, f, n - 1)), multiset(Matched(s, g, n - 1));
      if j == n - 1 {
        assert after == before;
        assert multiset(Matched(s, g, n)) == before + multiset{s[j]};
      } else {
        var x := if f[n - 1] then multiset{s[n - 1]} else multiset{};
        var y := if j < n - 1 then multiset{s[j]} else multiset{};
        assert g[n - 1] == f[n - 1];
        assert after == before + y;
        assert multiset(Matched(s, g, n)) == before + y + x;
        assert multiset(Matched(s, f, n)) == before + x;
      }
    }
  }

  // ---------------------------------------------------------------------
  // The matching phase

  /** What the matching loop keeps true after n iterations: both flag
      arrays hold matchCount set flags and no position of s1 at or after n
      is flagged. */
  ghost predicate CountInvariant(s1: string, s2: string, st: MatchState, n: nat)
  {
    && |st.s1Matches| == |s1| && |st.s2Matches| == |s2|
    && Count(st.s1Matches, |s1|) == st.matchCount == Count(st.s2Matches, |s2|)
    && st.matchCount <= n
    && (forall k :: n <= k < |s1| ==> !st.s1Matches[k])
  }

  /** One iteration claims at most one flag on each side: an unclaimed
      position of s2 and position i of s1, still unflagged. */
  lemma CountRowStep(s1: string, s2: string, st: MatchState, i: nat)
    requires i < |s1| && CountInvariant(s1, s2, st, i)
    ensures CountInvariant(s1, s2, MatchRow(s1, s2, st, i), i + 1)
  {
    var d := MaxDistance(|s1|, |s2|);
    var r := FirstFree(s1[i], s2, st.s2Matches, WindowStart(i, d), WindowEnd(i, d, |s2|));
    if r.Some? {
      CountSet(st.s1Matches, i, |s1|);
      CountSet(st.s2Matches, r.value, |s2|);
    }
  }

  lemma {:induction false} CountFacts(s1: string, s2: string, n: nat)
    requires n <= |s1|
    ensures CountInvariant(s1, s2, MatchUpTo(s1, s2, n), n)
  {
    if n == 0 {
      CountNone(seq(|s1|, _ => false), |s1|);
      CountNone(seq(|s2|, _ => false), |s2|);
    } else {
      CountFacts(s1, s2, n - 1);
      CountRowStep(s1, s2, MatchUpTo(s1, s2, n - 1), n - 1);
    }
  }

  /** Both flag arrays hold matchCount set flags, so no more characters
      match than the shorter string has. */
  lemma MatchCountBound(s1: string, s2: string)
    ensures var st := MatchUpTo(s1, s2, |s1|);
      && Count(st.s1Matches, |s1|) == st.matchCount == Count(st.s2Matches, |s2|)
      && st.matchCount <= Min(|s1|, |s2|)
  {
    CountFacts(s1, s2, |s1|);
  }

  /** The count invariant, and the matched characters of the two strings
      are the same multiset: every claim pairs two equal characters. */
  ghost predicate MatchInvariant(s1: string, s2: string, st: MatchState, n: nat)
  {
    && CountInvariant(s1, s2, st, n)
    && multiset(Matched(s1, st.s1Matches, |s1|)) == multiset(Matched(s2, st.s2Matches, |s2|))
  }

  lemma MatchRowStep(s1: string, s2: string, st: MatchState, i: nat)
    requires i < |s1| && MatchInvariant(s1, s2, st, i)
    ensures MatchInvariant(s1, s2, MatchRow(s1, s2, st, i), i + 1)
  {
    CountRowStep(s1, s2, st, i);
    var d := MaxDistance(|s1|, |s2|);
    var r := FirstFree(s1[i], s2, st.s2Matches, WindowStart(i, d), WindowEnd(i, d, |s2|));
    if r.Some? {
      MatchedSet(s1, st.s1Matches, i, |s1|);
      MatchedSet(s2, st.s2Matches, r.value, |s2|);
    }
  }

  lemma {:induction false} MatchFacts(s1: string, s2: string, n: nat)
    requires n <= |s1|
    ensures MatchInvariant(s1, s2, MatchUpTo(s1, s2, n), n)
  {
    if n == 0 {
      CountFacts(s1, s2, 0);
    } else {
      MatchFacts(s1, s2, n - 1);
      MatchRowStep(s1, s2, MatchUpTo(s1, s2, n - 1), n - 1);
    }
  }

  /** The characters the matching phase pairs up: those matched in s1 are
      a rearrangement of those matched in s2, so the transposition walk
      compares two strings of the same length and the same letters. */
  lemma MatchedPermutation(s1: string, s2: string)
    ensures var st := MatchUpTo(s1, s2, |s1|);
      multiset(Matched(s1, st.s1Matches, |s1|)) == multiset(Matched(s2, st.s2Matches, |s2|))
  {
    MatchFacts(s1, s2, |s1|);
  }

  /** FirstFree skips only positions that hold another character or are
      claimed already, and None means the whole window is such. */
  lemma {:induction false} FirstFreeIsFirst(c: char, s2: string, claimed: seq<bool>, lo: int, hi: int)
    requires 0 <= lo && hi <= |s2| == |claimed|
    decreases hi - lo
    ensures var r := FirstFree(c, s2, claimed, lo, hi);
      && (r.Some? ==> forall j :: lo <= j < r.value ==> s2[j] != c || claimed[j])
      && (r.None? ==> forall j :: lo <= j < hi ==> s2[j] != c || claimed[j])
  {
    if lo < hi && !(s2[lo] == c && !claimed[lo]) {
      FirstFreeIsFirst(c, s2, claimed, lo + 1, hi);
    }
  }

  /** FirstFree stops at an unclaimed equal character when every position
      before it in the window is claimed. */
  lemma {:induction false} FirstFreeAt(c: char, s2: string, claimed: seq<bool>, lo: int, hi: int, x: nat)
    requires 0 <= lo <= x < hi <= |s2| == |claimed|
    requires s2[x] == c && !claimed[x]
    requires forall j :: lo <= j < x ==> claimed[j]
    decreases x - lo
    ensures FirstFree(c, s2, claimed, lo, hi) == Some(x)
  {
    if lo < x {
      FirstFreeAt(c, s2, claimed, lo + 1, hi, x);
    }
  }

  // ---------------------------------------------------------------------
  // The score

  lemma RatioInUnit(x: real, y: real)
    requires 0.0 < x <= y
    ensures 0.0 < x / y <= 1.0
  {
  }

  lemma UnitRatio(x: real)
    requires 0.0 < x
    ensures x / x == 1.0
  {
  }

  /** With at least one match, the Jaro similarity lies in (0, 1]. */
  lemma JaroBounds(m: nat, t: nat, len1: nat, len2: nat)
    requires 0 < m <= len1 && m <= len2 && t <= m
    ensures 0.0 < Jaro(m, t, len1, len2) <= 1.0
  {
    RatioInUnit(m as real, len1 as real);
    RatioInUnit(m as real, len2 as real);
    RatioInUnit(m as real - t as real / 2.0, m as real);
  }

  /** A prefix of at most 4 raises the score by at most 0.4 * (1 - jaro). */
  lemma WinklerBounds(jaro: real, prefix: nat)
    requires 0.0 < jaro <= 1.0 && prefix <= 4
    ensures jaro <= Winkler(jaro, prefix) <= jaro + 0.4 * (1.0 - jaro)
    ensures Winkler(jaro, prefix) <= 1.0
  {
    if prefix == 0 {
    } else if prefix == 1 {
    } else if prefix == 2 {
    } else if prefix == 3 {
    } else {
    }
  }

  /** The score is always in [0, 1], and it is 0 exactly when nothing matches. */
  lemma ScoreBounds(s1: string, s2: string)
    ensures 0.0 <= JaroWinkler(s1, s2) <= 1.0
    ensures JaroWinkler(s1, s2) == 0.0 <==> MatchUpTo(s1, s2, |s1|).matchCount == 0
  {
    var st := MatchUpTo(s1, s2, |s1|);
    if st.matchCount > 0 {
      MatchCountBound(s1, s2);
      JaroBounds(st.matchCount, Transpositions(s1, s2), |s1|, |s2|);
      WinklerBounds(Jaro(st.matchCount, Transpositions(s1, s2), |s1|, |s2|),
                    SharedPrefixFrom(s1, s2, PrefixCap(s1, s2), 0));
    }
  }

  /** An empty string matches nothing, so the score is 0 (no division by zero). */
  lemma EmptyScoresZero(s1: string, s2: string)
    requires |s1| == 0 || |s2| == 0
    ensures JaroWinkler(s1, s2) == 0.0
  {
    MatchCountBound(s1, s2);
  }

  /** When the window radius is -1 the window is empty for every position. */
  lemma {:induction false} NoWindowNoMatch(s1: string, s2: string, n: nat)
    requires n <= |s1| && MaxDistance(|s1|, |s2|) == -1
    ensures MatchUpTo(s1, s2, n).matchCount == 0
  {
    if n > 0 {
      NoWindowNoMatch(s1, s2, n - 1);
    }
  }

  /** Strings of at most one character never match, even when identical. */
  lemma ShortScoresZero(s1: string, s2: string)
    requires |s1| <= 1 && |s2| <= 1
    ensures JaroWinkler(s1, s2) == 0.0
  {
    NoWindowNoMatch(s1, s2, |s1|);
  }

  /** Matching a string against itself pairs every position with itself. */
  lemma {:induction false} SelfMatch(s: string, n: nat)
    requires 2 <= |s| && n <= |s|
    ensures var st := MatchUpTo(s, s, n);
      && st.matchCount == n
      && (forall k :: 0 <= k < |s| ==> st.s1Matches[k] == (k < n))
      && (forall k :: 0 <= k < |s| ==> st.s2Matches[k] == (k < n))
  {
    if n > 0 {
      SelfMatch(s, n - 1);
      var prev := MatchUpTo(s, s, n - 1);
      var d := MaxDistance(|s|, |s|);
      FirstFreeAt(s[n - 1], s, prev.s2Matches, WindowStart(n - 1, d), WindowEnd(n - 1, d, |s|), n - 1);
    }
  }

  lemma {:induction false} MatchedAll(s: string, f: seq<bool>, n: nat)
    requires n <= |s| == |f|
    requires forall k :: 0 <= k < |f| ==> f[k]
    ensures Matched(s, f, n) == s[..n]
  {
    if n > 0 {
      MatchedAll(s, f, n - 1);
      assert s[..n] == s[..n - 1] + [s[n - 1]];
    }
  }

  lemma MismatchesSnoc(a: string, b: string, x: char, y: char)
    requires |a| == |b|
    ensures Mismatches(a + [x], b + [y]) == Mismatches(a, b) + (if x != y then 1 else 0)
  {
    assert (a + [x])[..|a|] == a && (b + [y])[..|b|] == b;
  }

  lemma {:induction false} MismatchesSelf(a: string)
    ensures Mismatches(a, a) == 0
  {
    if |a| > 0 {
      MismatchesSelf(a[..|a| - 1]);
    }
  }

  /** Against itself, every character of a string of two or more
      characters is matched, at its own position, so none is transposed. */
  lemma SelfTranspositions(s: string)
    requires 2 <= |s|
    ensures MatchUpTo(s, s, |s|).matchCount == |s|
    ensures Transpositions(s, s) == 0
  {
    var st := MatchUpTo(s, s, |s|);
    SelfMatch(s, |s|);
    MatchedAll(s, st.s1Matches, |s|);
    MatchedAll(s, st.s2Matches, |s|);
    assert s[..|s|] == s;
    MismatchesSelf(s);
  }

  lemma JaroAllMatched(len: nat)
    requires 0 < len
    ensures Jaro(len, 0, len, len) == 1.0
  {
    UnitRatio(len as real);
  }

  /** A string of two or more characters scores exactly 1 against itself. */
  lemma IdenticalScoresOne(s: string)
    requires 2 <= |s|
    ensures JaroWinkler(s, s) == 1.0
  {
    SelfTranspositions(s);
    JaroAllMatched(|s|);
    assert Winkler(1.0, SharedPrefixFrom(s, s, PrefixCap(s, s), 0)) == 1.0;
  }
}
