/** Word and text similarity of a `Glove` instance (Glove.js:33-94). A
    word pair is scored by the cosine of the two word vectors, or by
    Jaro-Winkler when a word has no vector or the caller asks for
    Jaro-Winkler throughout. A text pair is scored by averaging, over every
    pair of sections, the average score of the token pairs. */
module Similarity {
  import opened Wrappers
  import opened JaroWinklerSpec
  import opened TokenizerSpec
  import StringDistance
  import Tokenizer

  /** A loaded instance: the word vectors, and the cosine of two vectors
      (the dot product over the product of the stored norms, Glove.js:45-48),
      which the model leaves uninterpreted. */
  datatype Glove = Glove(wordVectors: map<string, seq<real>>, cosine: (seq<real>, seq<real>) -> real)

  /** Whether a word pair falls back to Jaro-Winkler (Glove.js:40). */
  predicate FallsBack(g: Glove, word1: string, word2: string, fullJaroWink: bool)
  {
    word1 !in g.wordVectors || word2 !in g.wordVectors || fullJaroWink
  }

  /** The score `cosineSimilarity(word1, word2, {full_jarowink: fullJaroWink})` returns. */
  function WordSimilarity(g: Glove, word1: string, word2: string, fullJaroWink: bool): real
  {
    if FallsBack(g, word1, word2, fullJaroWink) then JaroWinkler(word1, word2)
    else g.cosine(g.wordVectors[word1], g.wordVectors[word2])
  }

  /** `cosineSimilarity` (Glove.js:33-51): Jaro-Winkler for a word without a
      vector or when fullJaroWink is set, the cosine of the vectors otherwise. */
  method CosineSimilarity(g: Glove, word1: string, word2: string, fullJaroWink: bool)
    returns (similarity: real)
    ensures similarity == WordSimilarity(g, word1, word2, fullJaroWink)
    ensures FallsBack(g, word1, word2, fullJaroWink) ==> 0.0 <= similarity <= 1.0
  {
    if word1 !in g.wordVectors || word2 !in g.wordVectors || fullJaroWink {
      similarity := StringDistance.JaroWinklerDistance(word1, word2);
      return;
    }
    similarity := g.cosine(g.wordVectors[word1], g.wordVectors[word2]);
  }

  // ---------------------------------------------------------------------
  // Running sums. They are stated for any word-pair score; the text score
  // uses the instance's.

  /** A score of a pair of words. */
  type Score = (string, string) -> real

  /** The score of an instance, as a value. */
  function WordScore(g: Glove, fullJaroWink: bool): (score: Score)
    ensures IsWordScore(g, fullJaroWink, score)
  {
    (word1, word2) => WordSimilarity(g, word1, word2, fullJaroWink)
  }

  /** score is the instance's word score. The quantifier fires only on a
      WordSimilarity term, so that reasoning about the running sums does not
      unfold the word score of every pair in sight. */
  ghost predicate IsWordScore(g: Glove, fullJaroWink: bool, score: Score)
  {
    forall word1, word2 {:trigger WordSimilarity(g, word1, word2, fullJaroWink)} ::
      score(word1, word2) == WordSimilarity(g, word1, word2, fullJaroWink)
  }

  /** A running sum of scores and the number of scores in it. */
  datatype Tally = Tally(sum: real, count: nat)

  function Plus(a: Tally, b: Tally): Tally
  {
    Tally(a.sum + b.sum, a.count + b.count)
  }

  /** The scores of token1 against the first n tokens of tokens2; a pair
      counts only when both tokens are non-empty (Glove.js:74). */
  function RowTally(score: Score, token1: string, tokens2: seq<string>, n: nat): Tally
    requires n <= |tokens2|
  {
    if n == 0 then Tally(0.0, 0)
    else
      var token2 := tokens2[n - 1];
      Plus(RowTally(score, token1, tokens2, n - 1),
           if |token1| > 0 && |token2| > 0 then Tally(score(token1, token2), 1) else Tally(0.0, 0))
  }

  /** The scores of the first n tokens of tokens1 against all of tokens2. */
  function GridTally(score: Score, tokens1: seq<string>, tokens2: seq<string>, n: nat): Tally
    requires n <= |tokens1|
  {
    if n == 0 then Tally(0.0, 0)
    else Plus(GridTally(score, tokens1, tokens2, n - 1), RowTally(score, tokens1[n - 1], tokens2, |tokens2|))
  }

  /** The average over a set of scores, None when there is none. */
  function Average(t: Tally): Option<real>
  {
    if t.count == 0 then None else Some(t.sum / t.count as real)
  }

  /** What one section pair adds to the text's running sum: the average
      score of its token pairs, and nothing when no token pair scored
      (Glove.js:83-86). */
  function PairTally(score: Score, section1: Section, section2: Section): Tally
  {
    match Average(GridTally(score, section1.tokens, section2.tokens, |section1.tokens|))
    case Some(avg) => Tally(avg, 1)
    case None => Tally(0.0, 0)
  }

  /** The section-pair averages of section1 against the first n sections of sections2. */
  function SectionRowTally(score: Score, section1: Section, sections2: seq<Section>, n: nat): Tally
    requires n <= |sections2|
  {
    if n == 0 then Tally(0.0, 0)
    else Plus(SectionRowTally(score, section1, sections2, n - 1), PairTally(score, section1, sections2[n - 1]))
  }

  /** The section-pair averages of the first n sections of sections1 against all of sections2. */
  function TextTally(score: Score, sections1: seq<Section>, sections2: seq<Section>, n: nat): Tally
    requires n <= |sections1|
  {
    if n == 0 then Tally(0.0, 0)
    else Plus(TextTally(score, sections1, sections2, n - 1),
              SectionRowTally(score, sections1[n - 1], sections2, |sections2|))
  }

  /** The score `textCosineSimilarity(text1, text2, {full_jarowink: fullJaroWink})`
      returns; None stands for the NaN of 0/0 when no section pair scored. */
  function TextScore(g: Glove, text1: string, text2: string, fullJaroWink: bool): Option<real>
  {
    var sections1 := Tokenize(Delimiters([]), text1);
    var sections2 := Tokenize(Delimiters([]), text2);
    Average(TextTally(WordScore(g, fullJaroWink), sections1, sections2, |sections1|))
  }

  // ---------------------------------------------------------------------
  // The loops. Each takes, as a ghost parameter, the word score it sums.

  /** The innermost loop of `textCosineSimilarity` (Glove.js:72-79): the
      sum and the number of scores of token1 against every token of tokens2. */
  method TokenRowSimilarity(g: Glove, token1: string, tokens2: seq<string>, fullJaroWink: bool,
                            ghost score: Score)
    returns (rowSimilarity: real, rowCount: nat)
    requires IsWordScore(g, fullJaroWink, score)
    ensures Tally(rowSimilarity, rowCount) == RowTally(score, token1, tokens2, |tokens2|)
  {
    rowSimilarity, rowCount := 0.0, 0;
    var l := 0;
    while l < |tokens2|
      invariant 0 <= l <= |tokens2|
      invariant Tally(rowSimilarity, rowCount) == RowTally(score, token1, tokens2, l)
    {
      var token2 := tokens2[l];
      if |token1| > 0 && |token2| > 0 {
        var similarity := CosineSimilarity(g, token1, token2, fullJaroWink);
        rowSimilarity := rowSimilarity + similarity;
        rowCount := rowCount + 1;
      }
      l := l + 1;
    }
  }

  /** The two inner loops of `textCosineSimilarity` (Glove.js:70-80): the
      sum and the number of scores of every token pair of two sections. */
  method SectionPairSimilarity(g: Glove, tokens1: seq<string>, tokens2: seq<string>, fullJaroWink: bool,
                               ghost score: Score)
    returns (sectionSimilarity: real, wordCount: nat)
    requires IsWordScore(g, fullJaroWink, score)
    ensures Tally(sectionSimilarity, wordCount) == GridTally(score, tokens1, tokens2, |tokens1|)
  {
    sectionSimilarity, wordCount := 0.0, 0;
    var k := 0;
    while k < |tokens1|
      invariant 0 <= k <= |tokens1|
      invariant Tally(sectionSimilarity, wordCount) == GridTally(score, tokens1, tokens2, k)
    {
      var rowSimilarity, rowCount := TokenRowSimilarity(g, tokens1[k], tokens2, fullJaroWink, score);
      sectionSimilarity := sectionSimilarity + rowSimilarity;
      wordCount := wordCount + rowCount;
      k := k + 1;
    }
  }

  /** The second loop of `textCosineSimilarity` (Glove.js:64-87): the sum
      and the number of the section-pair averages of section1 against every
      section of sections2. */
  method SectionRowSimilarity(g: Glove, section1: Section, sections2: seq<Section>, fullJaroWink: bool,
                              ghost score: Score)
    returns (rowSimilarity: real, rowCount: nat)
    requires IsWordScore(g, fullJaroWink, score)
    ensures Tally(rowSimilarity, rowCount) == SectionRowTally(score, section1, sections2, |sections2|)
  {
    rowSimilarity, rowCount := 0.0, 0;
    var j := 0;
    while j < |sections2|
      invariant 0 <= j <= |sections2|
      invariant Tally(rowSimilarity, rowCount) == SectionRowTally(score, section1, sections2, j)
    {
      var sectionSimilarity, wordCount :=
        SectionPairSimilarity(g, section1.tokens, sections2[j].tokens, fullJaroWink, score);
      if wordCount > 0 {
        rowSimilarity := rowSimilarity + sectionSimilarity / wordCount as real;
        rowCount := rowCount + 1;
      }
      j := j + 1;
    }
  }

  /** The outer loop of `textCosineSimilarity` and its final division
      (Glove.js:62-93): the average of the section-pair averages of every
      section of sections1 against every section of sections2. */
  method SectionsSimilarity(g: Glove, sections1: seq<Section>, sections2: seq<Section>, fullJaroWink: bool,
                            ghost score: Score)
    returns (avgSimilarity: Option<real>)
    requires IsWordScore(g, fullJaroWink, score)
    ensures avgSimilarity == Average(TextTally(score, sections1, sections2, |sections1|))
  {
    var totalSimilarity: real := 0.0;
    var similarityCount: nat := 0;
    var i := 0;
    while i < |sections1|
      invariant 0 <= i <= |sections1|
      invariant Tally(totalSimilarity, similarityCount) == TextTally(score, sections1, sections2, i)
    {
      var rowSimilarity, rowCount := SectionRowSimilarity(g, sections1[i], sections2, fullJaroWink, score);
      totalSimilarity := totalSimilarity + rowSimilarity;
      similarityCount := similarityCount + rowCount;
      i := i + 1;
    }
    if similarityCount == 0 {
      return None;
    }
    avgSimilarity := Some(totalSimilarity / similarityCount as real);
  }

  /** `textCosineSimilarity` (Glove.js:53-94): both texts are tokenized with
      the built-in delimiters only; the result is the average, over every
      pair of sections, of the average score of their token pairs, None when
      no section pair scored. */
  method TextCosineSimilarity(g: Glove, text1: string, text2: string, fullJaroWink: bool)
    returns (avgSimilarity: Option<real>)
    ensures avgSimilarity == TextScore(g, text1, text2, fullJaroWink)
  {
    var sections1 := Tokenizer.MasterToken(text1, []);
    var sections2 := Tokenizer.MasterToken(text2, []);
    avgSimilarity := SectionsSimilarity(g, sections1, sections2, fullJaroWink, WordScore(g, fullJaroWink));
  }

  // ---------------------------------------------------------------------
  // Properties

  /** A word without a vector, or the fullJaroWink option, gives the
      Jaro-Winkler score of the two words, which is in [0, 1]; otherwise
      the score is the cosine of the two stored vectors (Glove.js:40-50). */
  lemma FallbackScore(g: Glove, word1: string, word2: string, fullJaroWink: bool)
    ensures FallsBack(g, word1, word2, fullJaroWink) ==>
      && WordSimilarity(g, word1, word2, fullJaroWink) == JaroWinkler(word1, word2)
      && 0.0 <= WordSimilarity(g, word1, word2, fullJaroWink) <= 1.0
    ensures !FallsBack(g, word1, word2, fullJaroWink) ==>
      WordSimilarity(g, word1, word2, fullJaroWink) == g.cosine(g.wordVectors[word1], g.wordVectors[word2])
  {
    ScoreBounds(word1, word2);
  }

  /** Every section has a token and every token is non-empty. */
  predicate Scorable(sections: seq<Section>)
  {
    forall k, m :: 0 <= k < |sections| && 0 <= m < |sections[k].tokens| ==> |sections[k].tokens[m]| > 0
  }

  predicate NoEmptySection(sections: seq<Section>)
  {
    forall k :: 0 <= k < |sections| ==> |sections[k].tokens| > 0
  }

  lemma {:induction false} RowCount(score: Score, token1: string, tokens2: seq<string>, n: nat)
    requires n <= |tokens2| && |token1| > 0
    requires forall m :: 0 <= m < |tokens2| ==> |tokens2[m]| > 0
    ensures RowTally(score, token1, tokens2, n).count == n
  {
    if n > 0 {
      RowCount(score, token1, tokens2, n - 1);
    }
  }

  /** When no token is empty, every token pair of two sections is scored. */
  lemma {:induction false} GridCount(score: Score, tokens1: seq<string>, tokens2: seq<string>, n: nat)
    requires n <= |tokens1|
    requires forall m :: 0 <= m < |tokens1| ==> |tokens1[m]| > 0
    requires forall m :: 0 <= m < |tokens2| ==> |tokens2[m]| > 0
    ensures GridTally(score, tokens1, tokens2, n).count == n * |tokens2|
  {
    if n > 0 {
      GridCount(score, tokens1, tokens2, n - 1);
      RowCount(score, tokens1[n - 1], tokens2, |tokens2|);
      assert (n - 1) * |tokens2| + |tokens2| == n * |tokens2|;
    }
  }

  lemma PairCount(score: Score, section1: Section, section2: Section)
    requires Scorable([section1, section2]) && NoEmptySection([section1, section2])
    ensures PairTally(score, section1, section2).count == 1
  {
    var tokens1, tokens2 := section1.tokens, section2.tokens;
    assert [section1, section2][0].tokens == tokens1 && [section1, section2][1].tokens == tokens2;
    GridCount(score, tokens1, tokens2, |tokens1|);
    assert |tokens1| * |tokens2| >= |tokens2| > 0;
  }

  lemma {:induction false} SectionRowCount(score: Score, section1: Section, sections2: seq<Section>, n: nat)
    requires n <= |sections2|
    requires Scorable([section1] + sections2) && NoEmptySection([section1] + sections2)
    ensures SectionRowTally(score, section1, sections2, n).count == n
  {
    if n > 0 {
      SectionRowCount(score, section1, sections2, n - 1);
      var pair := [section1, sections2[n - 1]];
      assert pair[0] == ([section1] + sections2)[0] && pair[1] == ([section1] + sections2)[n];
      PairCount(score, section1, sections2[n - 1]);
    }
  }

  /** When every section has a token and no token is empty, every section
      pair contributes one average: the count is the product of the numbers
      of sections. */
  lemma {:induction false} TextCount(score: Score, sections1: seq<Section>, sections2: seq<Section>, n: nat)
    requires n <= |sections1|
    requires Scorable(sections1) && NoEmptySection(sections1)
    requires Scorable(sections2) && NoEmptySection(sections2)
    ensures TextTally(score, sections1, sections2, n).count == n * |sections2|
  {
    if n > 0 {
      TextCount(score, sections1, sections2, n - 1);
      var row := [sections1[n - 1]] + sections2;
      assert forall k :: 0 < k < |row| ==> row[k] == sections2[k - 1];
      SectionRowCount(score, sections1[n - 1], sections2, |sections2|);
      assert (n - 1) * |sections2| + |sections2| == n * |sections2|;
    }
  }

  /** What MasterToken returns can be scored: every section has a token
      and every token has two or more characters. */
  lemma TokenizeScorable(text: string)
    ensures Scorable(Tokenize(Delimiters([]), text)) && NoEmptySection(Tokenize(Delimiters([]), text))
  {
    var sections := Tokenize(Delimiters([]), text);
    TokenizeWellFormed(Delimiters([]), text);
    forall k, m | 0 <= k < |sections| && 0 <= m < |sections[k].tokens|
      ensures |sections[k].tokens[m]| > 0
    {
      assert sections[k] in sections && sections[k].tokens[m] in sections[k].tokens;
    }
    forall k | 0 <= k < |sections|
      ensures |sections[k].tokens| > 0
    {
      assert sections[k] in sections;
    }
  }

  /** Every section pair of the two texts contributes, so the number of
      averages is the product of the numbers of sections, and the text
      score is undefined (NaN in the source) exactly when one of the texts
      has no section (Glove.js:62-93). */
  lemma TextScoreCount(g: Glove, text1: string, text2: string, fullJaroWink: bool)
    ensures var sections1 := Tokenize(Delimiters([]), text1);
      var sections2 := Tokenize(Delimiters([]), text2);
      && TextTally(WordScore(g, fullJaroWink), sections1, sections2, |sections1|).count == |sections1| * |sections2|
      && (TextScore(g, text1, text2, fullJaroWink).None? <==> |sections1| == 0 || |sections2| == 0)
  {
    var sections1 := Tokenize(Delimiters([]), text1);
    var sections2 := Tokenize(Delimiters([]), text2);
    TokenizeScorable(text1);
    TokenizeScorable(text2);
    var tally := TextTally(WordScore(g, fullJaroWink), sections1, sections2, |sections1|);
    TextCount(WordScore(g, fullJaroWink), sections1, sections2, |sections1|);
    assert TextScore(g, text1, text2, fullJaroWink) == Average(tally);
    ProductZero(|sections1|, |sections2|);
  }

  lemma ProductZero(a: nat, b: nat)
    ensures a * b == 0 <==> a == 0 || b == 0
  {
    if a > 0 && b > 0 {
      assert a * b >= b;
    }
  }

  // Bounds

  /** A score with every value in [0, 1]. */
  ghost predicate InUnit(score: Score)
  {
    forall word1, word2 :: 0.0 <= score(word1, word2) <= 1.0
  }

  /** A running sum of scores in [0, 1]: between 0 and the count. */
  predicate Bounded(t: Tally)
  {
    0.0 <= t.sum <= t.count as real
  }

  lemma {:induction false} RowBounded(score: Score, token1: string, tokens2: seq<string>, n: nat)
    requires n <= |tokens2| && InUnit(score)
    ensures Bounded(RowTally(score, token1, tokens2, n))
  {
    if n > 0 {
      RowBounded(score, token1, tokens2, n - 1);
    }
  }

  lemma {:induction false} GridBounded(score: Score, tokens1: seq<string>, tokens2: seq<string>, n: nat)
    requires n <= |tokens1| && InUnit(score)
    ensures Bounded(GridTally(score, tokens1, tokens2, n))
  {
    if n > 0 {
      GridBounded(score, tokens1, tokens2, n - 1);
      RowBounded(score, tokens1[n - 1], tokens2, |tokens2|);
    }
  }

  /** The average of scores in [0, 1] is in [0, 1]. */
  lemma AverageInUnit(t: Tally)
    requires Bounded(t)
    ensures Average(t).Some? ==> 0.0 <= Average(t).value <= 1.0
  {
    if t.count > 0 {
      var c := t.count as real;
      assert t.sum / c <= c / c;
    }
  }

  lemma PairBounded(score: Score, section1: Section, section2: Section)
    requires InUnit(score)
    ensures Bounded(PairTally(score, section1, section2))
  {
    var grid := GridTally(score, section1.tokens, section2.tokens, |section1.tokens|);
    GridBounded(score, section1.tokens, section2.tokens, |section1.tokens|);
    AverageInUnit(grid);
  }

  lemma {:induction false} SectionRowBounded(score: Score, section1: Section, sections2: seq<Section>, n: nat)
    requires n <= |sections2| && InUnit(score)
    ensures Bounded(SectionRowTally(score, section1, sections2, n))
  {
    if n > 0 {
      SectionRowBounded(score, section1, sections2, n - 1);
      PairBounded(score, section1, sections2[n - 1]);
    }
  }

  lemma {:induction false} TextBounded(score: Score, sections1: seq<Section>, sections2: seq<Section>, n: nat)
    requires n <= |sections1| && InUnit(score)
    ensures Bounded(TextTally(score, sections1, sections2, n))
  {
    if n > 0 {
      TextBounded(score, sections1, sections2, n - 1);
      SectionRowBounded(score, sections1[n - 1], sections2, |sections2|);
    }
  }

  /** With fullJaroWink every word pair is scored by Jaro-Winkler, in [0, 1]. */
  lemma FullJaroWinkInUnit(g: Glove)
    ensures InUnit(WordScore(g, true))
  {
    forall word1, word2
      ensures 0.0 <= WordScore(g, true)(word1, word2) <= 1.0
    {
      ScoreBounds(word1, word2);
    }
  }

  /** With fullJaroWink, the text score is defined exactly when both texts
      have a section, and it is then in [0, 1] (Glove.js:62-93). */
  lemma FullJaroWinkTextScore(g: Glove, text1: string, text2: string)
    ensures var sections1 := Tokenize(Delimiters([]), text1);
      var sections2 := Tokenize(Delimiters([]), text2);
      TextScore(g, text1, text2, true).Some? <==> |sections1| > 0 && |sections2| > 0
    ensures TextScore(g, text1, text2, true).Some? ==> 0.0 <= TextScore(g, text1, text2, true).value <= 1.0
  {
    var sections1 := Tokenize(Delimiters([]), text1);
    var sections2 := Tokenize(Delimiters([]), text2);
    TextScoreCount(g, text1, text2, true);
    FullJaroWinkInUnit(g);
    TextBounded(WordScore(g, true), sections1, sections2, |sections1|);
    AverageInUnit(TextTally(WordScore(g, true), sections1, sections2, |sections1|));
  }

  // Independence from the store

  /** Two scores that agree on every word pair. */
  ghost predicate SameScore(score1: Score, score2: Score)
  {
    forall word1, word2 :: score1(word1, word2) == score2(word1, word2)
  }

  lemma {:induction false} RowSame(score1: Score, score2: Score, token1: string, tokens2: seq<string>, n: nat)
    requires n <= |tokens2| && SameScore(score1, score2)
    ensures RowTally(score1, token1, tokens2, n) == RowTally(score2, token1, tokens2, n)
  {
    if n > 0 {
      RowSame(score1, score2, token1, tokens2, n - 1);
    }
  }

  lemma {:induction false} GridSame(score1: Score, score2: Score, tokens1: seq<string>, tokens2: seq<string>, n: nat)
    requires n <= |tokens1| && SameScore(score1, score2)
    ensures GridTally(score1, tokens1, tokens2, n) == GridTally(score2, tokens1, tokens2, n)
  {
    if n > 0 {
      GridSame(score1, score2, tokens1, tokens2, n - 1);
      RowSame(score1, score2, tokens1[n - 1], tokens2, |tokens2|);
    }
  }

  lemma {:induction false} SectionRowSame(score1: Score, score2: Score, section1: Section, sections2: seq<Section>, n: nat)
    requires n <= |sections2| && SameScore(score1, score2)
    ensures SectionRowTally(score1, section1, sections2, n) == SectionRowTally(score2, section1, sections2, n)
  {
    if n > 0 {
      SectionRowSame(score1, score2, section1, sections2, n - 1);
      GridSame(score1, score2, section1.tokens, sections2[n - 1].tokens, |section1.tokens|);
    }
  }

  lemma {:induction false} TextSame(score1: Score, score2: Score, sections1: seq<Section>, sections2: seq<Section>, n: nat)
    requires n <= |sections1| && SameScore(score1, score2)
    ensures TextTally(score1, sections1, sections2, n) == TextTally(score2, sections1, sections2, n)
  {
    if n > 0 {
      TextSame(score1, score2, sections1, sections2, n - 1);
      SectionRowSame(score1, score2, sections1[n - 1], sections2, |sections2|);
    }
  }

  /** With fullJaroWink the word vectors and the cosine are never consulted:
      two instances give every pair of texts the same score. */
  lemma FullJaroWinkIgnoresVectors(g1: Glove, g2: Glove, text1: string, text2: string)
    ensures TextScore(g1, text1, text2, true) == TextScore(g2, text1, text2, true)
  {
    var sections1 := Tokenize(Delimiters([]), text1);
    var sections2 := Tokenize(Delimiters([]), text2);
    assert SameScore(WordScore(g1, true), WordScore(g2, true));
    TextSame(WordScore(g1, true), WordScore(g2, true), sections1, sections2, |sections1|);
  }
}
