# Glove.js core in Dafny

This project models the computational core of the `Glove` class in
`Glove.js`: the Jaro-Winkler string similarity `jaroWinklerDistance`, the
tokenizer `MasterToken`, the word-level `cosineSimilarity` with its
Jaro-Winkler fallback, and the text-level `textCosineSimilarity`, which
averages word scores over every pair of sections of two texts.

Each routine that works by updating variables and arrays in loops is an
imperative method. Each method is proved equal to a specification function,
and the properties the source relies on are proved about those functions.

- `wrappers.dfy`: module `Wrappers`, the `Option` type.
- `jaro_winkler_spec.dfy`: module `JaroWinklerSpec`. It defines the
  matching phase as a fold over the positions of `s1`
  (`MatchRow`/`MatchUpTo`). It defines the transposition count as the
  number of ranks at which the matched characters of the two strings
  differ (`Matched`, `Mismatches`), and the capped common prefix as
  `SharedPrefixFrom`. `JaroWinkler` is the score; the lemmas are the
  counting facts and the bounds.
- `jaro_winkler.dfy`: module `StringDistance`. `jaroWinklerDistance`
  over two `array<bool>` flag arrays filled in place. The three loops
  are `MatchPhase` (with `MatchOne` for one pass of the inner loop),
  `CountTranspositions` and `CommonPrefix`.
- `tokenizer_spec.dfy`: module `TokenizerSpec`. It gives two definitions
  of the tokenizer:
  - the character-by-character scan the source performs (`Step`,
    `ScanUpTo`, `RawSections`);
  - a reference definition: split the text at delimiter characters, then
    split each segment at whitespace (`Split`, `SplitSections`).

  `ScanIsSplit` proves the two equal. The properties of the returned
  sections follow from the split form.
- `tokenizer.dfy`: module `Tokenizer`. `MasterToken` is the scan loop
  (`ScanSections`), then the token filter (`FilterTokens`), then the
  removal of empty sections.
- `similarity.dfy`: module `Similarity`.
  - A `Glove` instance is a value: the word-vector map and the cosine of
    two vectors. The source never changes either after construction.
  - `CosineSimilarity` is the word score.
  - The four nested loops of `textCosineSimilarity` are four methods.
    Each is proved equal to a running sum (`Tally`) defined for any
    word-pair score. The methods receive the instance's score as a ghost
    parameter, tied to `WordSimilarity` by `IsWordScore`.

## Behaviour of the code worth knowing

The model follows what the code does, including where it departs from
what its comments or a reader would expect:

- **The first word of every section is lost.** The comment at
  Glove.js:192 says a character that is neither a delimiter nor whitespace
  is added to the current token, and Glove.js:193-194 appends it to the
  last token. No token is ever created for the start of a section,
  though. While a section has no token yet, the write goes to index `-1`,
  a property outside the array, and the character is lost. Every
  character from the start of a section up to its first whitespace is
  therefore dropped. For example, `"cat and dog. fish swims!"` gives the
  sections `["and", "dog"]` and `["fish", "swims"]`, with no `"cat"`.
  `Step`, `RawTokens` and `LeadDropped` state this behaviour.
- **A string of one character scores 0 against itself.** A similarity
  is expected to give 1 for identical strings. Here the match radius is
  `floor(max(len1, len2) / 2) - 1`, which is -1 for two strings of one
  character. The window is then empty, nothing matches, and the score
  is 0. Identical strings of two or more characters do score 1
  (`IdenticalScoresOne`); `ShortScoresZero` states the case of one
  character.
- **An empty string does not divide by zero.** Nothing matches, so the
  early `return 0` at Glove.js:130-132 is taken (`EmptyScoresZero`).
- **The text score can be undefined.** When either text yields no
  section, `textCosineSimilarity` divides 0 by 0 and returns `NaN`. The
  model returns `None` then, and `Some(average)` otherwise. A non-empty
  text can still yield no section, for example the single word
  `"hello"`, which is lost as the first word of its section.

## Model

| member | source | states |
|---|---|---|
| StringDistance.JaroWinklerDistance | Glove.js:97-164 | the returned score is the specification score `JaroWinkler(s1, s2)` and lies in [0, 1] |
| StringDistance.MatchPhase | Glove.js:112-127 | after the matching loop, the two flag arrays and `matchCount` are the state `MatchUpTo(s1, s2, len1)` of the greedy windowed match |
| StringDistance.MatchOne | Glove.js:118-126 | one pass of the inner loop claims the first unclaimed equal character of `s2` in the window of `i`, or nothing, exactly as `MatchRow` describes |
| StringDistance.CountTranspositions | Glove.js:135-146 | the walk never reads past `s2` when the flag counts agree; the count is the number of ranks at which the matched characters of `s1` and `s2` differ, and is at most the number of matches |
| StringDistance.CommonPrefix | Glove.js:152-160 | the common prefix is at most 4 and at most either length, the two strings agree on it, and they differ just after it unless the cap was reached |
| JaroWinklerSpec.MaxDistance | Glove.js:103 | the radius d is at least -1 and satisfies `2(d + 1) <= max(len1, len2) < 2(d + 2)`, that is, d = floor(max / 2) - 1 |
| JaroWinklerSpec.WindowStart | Glove.js:118 | defines the first position of `s2` searched for position i, `max(0, i - maxDistance)`; it has no contract (see `MatchRow`, `MatchOne`, `NoWindowNoMatch`) |
| JaroWinklerSpec.WindowEnd | Glove.js:118 | defines one past the last position of `s2` searched for position i, `min(len2, i + maxDistance + 1)`; it has no contract (see `MatchRow`, `MatchOne`, `NoWindowNoMatch`) |
| JaroWinklerSpec.MatchRow | Glove.js:118-126 | defines one iteration of the matching loop: claim the position `FirstFree` finds in the window, flagging both strings and counting the match, or change nothing; it keeps both flag sequences at their strings' lengths (what it promises is in `CountFacts`, `MatchFacts` and `MatchOne`) |
| JaroWinklerSpec.MatchUpTo | Glove.js:112-127 | defines the flags and count after n iterations, starting from all-false flags and count 0; it keeps both flag sequences at their strings' lengths (see `CountFacts`, `MatchCountBound`, `MatchPhase`) |
| JaroWinklerSpec.Count | Glove.js:123 | defines the number of set flags among the first n, at most n (see `CountFacts`) |
| JaroWinklerSpec.Matched | Glove.js:135-146 | defines the characters at the flagged positions, in order, as many as there are set flags (see `MatchedPermutation`, `CountTranspositions`) |
| JaroWinklerSpec.Mismatches | Glove.js:141-143 | defines the number of ranks at which two equally long strings differ, at most their length (see `MismatchesSnoc`) |
| JaroWinklerSpec.SharedPrefixFrom | Glove.js:154-160 | defines the prefix scan from position i, which stops between i and the cap (see `SharedPrefixIsCommon`, `CommonPrefix`) |
| JaroWinklerSpec.PrefixCap | Glove.js:152 | defines the cap of the prefix scan, `min(4, min(len1, len2))`; it has no contract (see `CommonPrefix`) |
| JaroWinklerSpec.Jaro | Glove.js:149 | defines the Jaro formula from the match and transposition counts; it has no contract (see `JaroBounds`) |
| JaroWinklerSpec.Winkler | Glove.js:161 | defines the prefix boost; it has no contract (see `WinklerBounds`) |
| JaroWinklerSpec.JaroWinkler | Glove.js:97-164 | defines the score: 0 when nothing matches (Glove.js:130-132), otherwise the boosted Jaro similarity; it has no contract (see `ScoreBounds`, `IdenticalScoresOne`, `JaroWinklerDistance`) |
| JaroWinklerSpec.FirstFree | Glove.js:118-125 | a position found lies in the window and holds an unclaimed copy of the character |
| JaroWinklerSpec.FirstFreeIsFirst | Glove.js:118-125 | every position of the window before the one found (all of them when none is found) holds another character or is claimed |
| JaroWinklerSpec.FirstFreeAt | Glove.js:118-125 | when every earlier position of the window is claimed, the scan stops at the first unclaimed equal character |
| JaroWinklerSpec.CountFacts | Glove.js:116-127 | after n iterations both flag arrays hold `matchCount` set flags, `matchCount <= n`, and no position of `s1` at or after n is flagged |
| JaroWinklerSpec.MatchCountBound | Glove.js:116-127 | both flag arrays hold exactly `matchCount` set flags, and `matchCount <= min(len1, len2)` |
| JaroWinklerSpec.MatchFacts | Glove.js:116-127 | the count facts, and the matched characters of the two strings form the same multiset after every iteration |
| JaroWinklerSpec.MatchedPermutation | Glove.js:116-146 | the characters the transposition walk pairs up are a rearrangement of each other |
| JaroWinklerSpec.Transpositions | Glove.js:135-146 | the transposition count is at most the number of matches |
| JaroWinklerSpec.SharedPrefixIsCommon | Glove.js:152-160 | the prefix scan stops at the first differing position or at the cap |
| JaroWinklerSpec.JaroBounds | Glove.js:149 | with at least one match, the Jaro similarity is in (0, 1] |
| JaroWinklerSpec.WinklerBounds | Glove.js:161 | the prefix boost never lowers the score, adds at most 0.4 of the gap to 1, and keeps it at most 1 |
| JaroWinklerSpec.ScoreBounds | Glove.js:129-163 | the score is in [0, 1], and it is 0 exactly when nothing matches |
| JaroWinklerSpec.EmptyScoresZero | Glove.js:112-132 | if either string is empty, the score is 0 |
| JaroWinklerSpec.NoWindowNoMatch | Glove.js:103-127 | with a radius of -1 no position matches |
| JaroWinklerSpec.ShortScoresZero | Glove.js:103-132 | two strings of at most one character score 0, identical or not |
| JaroWinklerSpec.SelfMatch | Glove.js:116-127 | matching a string of two or more characters against itself pairs every position with itself |
| JaroWinklerSpec.SelfTranspositions | Glove.js:116-146 | against itself, every character of a string of two or more characters is matched, and none is transposed |
| JaroWinklerSpec.IdenticalScoresOne | Glove.js:116-161 | a string of two or more characters scores exactly 1 against itself |
| JaroWinklerSpec.MismatchesSnoc | Glove.js:141-143 | extending both matched strings by one character adds one transposition exactly when the two characters differ |
| JaroWinklerSpec.MatchedTail | Glove.js:135-146 | positions past the last set flag add no matched character |
| Tokenizer.MasterToken | Glove.js:167-210 | the result is `Tokenize(Delimiters(extra), text)`; every section has a token, and every token has two or more characters, contains no whitespace or delimiter character, and is a contiguous run of the text |
| Tokenizer.ScanSections | Glove.js:176-202 | the scan loop pushes the sections `RawSections` describes, including the final section when it has a token |
| Tokenizer.FilterTokens | Glove.js:204-206 | each section keeps exactly its tokens longer than one character |
| TokenizerSpec.BuiltInDelimiters | Glove.js:168-172 | defines the four built-in delimiters and their names; it has no contract (see `BuiltInsFirst`) |
| TokenizerSpec.IsWhitespace | Glove.js:188 | defines the characters the `\s` test matches; it has no contract |
| TokenizerSpec.Step | Glove.js:179-196 | defines one iteration of the scan, including the character lost at index -1 when the section has no token; it has no contract (see `StepDelimiter`, `StepWhitespace`, `StepOther`) |
| TokenizerSpec.AppendToLast | Glove.js:193-194 | defines the write of the current character onto the last token of a section that already has one; it has no contract (see `Step`, `StepOther`) |
| TokenizerSpec.ScanUpTo | Glove.js:179-196 | defines the scan state after n characters; it has no contract (see `ScanIsSplit`, `ScanSections`) |
| TokenizerSpec.RawSections | Glove.js:176-201 | defines the sections before filtering, the final one pushed only when it has a token; it has no contract (see `RawSectionsAreSplit`, `RawSectionsClean`) |
| TokenizerSpec.Tokenize | Glove.js:167-210 | defines what `MasterToken` returns; it has no contract (see `TokenizeWellFormed`, `MasterToken`) |
| TokenizerSpec.RawTokens | Glove.js:188-194 | defines the tokens a segment contributes: its whitespace-separated words except the first, which the write at index -1 loses; it has no contract (see `LeadDropped`) |
| TokenizerSpec.FindDelimiter | Glove.js:181 | the result is absent exactly when no delimiter has the character; otherwise it is the first delimiter in the list whose character it is |
| TokenizerSpec.BuiltInsFirst | Glove.js:168-181 | the built-in delimiters take precedence over extra ones with the same character |
| TokenizerSpec.FindDelimiterConcat | Glove.js:168-181 | looking up a character in a concatenated list tries the first list first |
| TokenizerSpec.LongTokens | Glove.js:205 | the kept tokens are tokens of the section, each longer than one character, and every such token is kept |
| TokenizerSpec.NonEmptySections | Glove.js:209 | the kept sections are sections of the input with a token, and every such section is kept |
| TokenizerSpec.LongTokensAppend | Glove.js:205 | the token filter keeps order: filtering a concatenation is the concatenation of the filtered parts |
| TokenizerSpec.LongTokensSingle | Glove.js:205 | a single token is kept exactly when it is longer than one character |
| TokenizerSpec.LongTokensCount | Glove.js:205 | the token filter keeps multiplicity: a token longer than one character occurs as often in the result as in the input, any other token never |
| TokenizerSpec.NonEmptySectionsAppend | Glove.js:209 | the section filter keeps order: filtering a concatenation is the concatenation of the filtered parts |
| TokenizerSpec.NonEmptySectionsSingle | Glove.js:209 | a single section is kept exactly when it has a token |
| TokenizerSpec.NonEmptySectionsCount | Glove.js:209 | the section filter keeps multiplicity: a section with a token occurs as often in the result as in the input, any other section never |
| TokenizerSpec.SplitJoin | Glove.js:179-197 | the reference split loses nothing: the parts joined with the separators give back the text |
| TokenizerSpec.SplitPartsClean | Glove.js:179-197 | no part of a split holds a separator character |
| TokenizerSpec.SplitPartsSubstrings | Glove.js:179-197 | every part of a split is a contiguous run of the text |
| TokenizerSpec.SplitHead | Glove.js:191-194 | the first part is a prefix of the text, followed by a separator unless it is the whole text |
| TokenizerSpec.SplitSnoc | Glove.js:183-195 | appending a separator starts a new empty part; appending another character extends the last part |
| TokenizerSpec.StepDelimiter | Glove.js:183-187 | a delimiter closes the open segment as a section labelled with the delimiter found, and opens an empty one |
| TokenizerSpec.StepWhitespace | Glove.js:188-190 | whitespace starts a new empty token in the open section |
| TokenizerSpec.StepOther | Glove.js:191-195 | another character extends the last token of the open section, or is lost when the section has no token yet |
| TokenizerSpec.ScanIsSplit | Glove.js:179-196 | after n characters, the pushed sections are the delimiter-closed segments of the first n characters, and the current tokens are the whitespace parts of the open segment except the first |
| TokenizerSpec.RawSectionsAreSplit | Glove.js:176-202 | the sections of the scan are the sections of the reference split |
| TokenizerSpec.RawSectionsClean | Glove.js:176-202 | every raw token is a clean run of the text, and every section's delimiter is the one found for a character of the text |
| TokenizerSpec.FilteredTokens | Glove.js:204-209 | every token that survives the filters is longer than one character and comes from a raw section |
| TokenizerSpec.TokenizeWellFormed | Glove.js:179-209 | every returned section has a token; every token is longer than one character, has no whitespace or delimiter character, and is a contiguous run of the text |
| TokenizerSpec.LeadDropped | Glove.js:191-194 | the characters from a section's start to its first whitespace are not in any token: the segment is that lead, a whitespace, and then exactly the tokens joined with the remaining whitespace; a segment without whitespace gives no token |
| Similarity.CosineSimilarity | Glove.js:33-51 | the word score is Jaro-Winkler when either word has no vector or fullJaroWink is set, and then lies in [0, 1]; otherwise it is the cosine of the two vectors |
| Similarity.FallsBack | Glove.js:40 | defines when a word pair falls back to Jaro-Winkler: either word has no vector, or fullJaroWink is set; it has no contract (see `FallbackScore`) |
| Similarity.WordSimilarity | Glove.js:40-50 | defines the word score; it has no contract (see `FallbackScore`, `CosineSimilarity`) |
| Similarity.RowTally | Glove.js:72-79 | defines the sum and count of the innermost loop, skipping a pair with an empty token; it has no contract (see `TokenRowSimilarity`, `RowCount`, `RowBounded`) |
| Similarity.GridTally | Glove.js:70-80 | defines the sum and count over every token pair of two sections; it has no contract (see `SectionPairSimilarity`, `GridCount`, `GridBounded`) |
| Similarity.PairTally | Glove.js:83-86 | defines what one section pair adds: its average and a count of 1, or nothing when no token pair scored; it has no contract (see `PairBounded`, `PairCount`) |
| Similarity.SectionRowTally | Glove.js:64-87 | defines the sum and count of section1 against every section of sections2; it has no contract (see `SectionRowSimilarity`, `SectionRowBounded`) |
| Similarity.TextTally | Glove.js:62-88 | defines `totalSimilarity` and `similarityCount` after the outer loop; it has no contract (see `TextCount`, `TextBounded`) |
| Similarity.Average | Glove.js:91 | defines the final division, `None` for the `NaN` of 0/0; it has no contract (see `AverageInUnit`) |
| Similarity.TextScore | Glove.js:53-94 | defines what `textCosineSimilarity` returns; it has no contract (see `TextScoreCount`, `FullJaroWinkTextScore`, `TextCosineSimilarity`) |
| Similarity.FallbackScore | Glove.js:40-50 | the fallback score equals `jaroWinklerDistance(word1, word2)` and lies in [0, 1]; otherwise the score is the cosine of the stored vectors |
| Similarity.TokenRowSimilarity | Glove.js:72-79 | the sum and count of the scores of token1 against every non-empty token of tokens2 |
| Similarity.SectionPairSimilarity | Glove.js:68-80 | the sum and count of the scores of every token pair of two sections |
| Similarity.SectionRowSimilarity | Glove.js:64-87 | the sum and count of the section-pair averages of section1 against every section that has a scored token pair |
| Similarity.SectionsSimilarity | Glove.js:58-93 | the average of all section-pair averages, absent when no section pair scored |
| Similarity.TextCosineSimilarity | Glove.js:53-94 | the text score is the average, over the section pairs of the two tokenized texts, of the average word score of each pair's tokens; absent (NaN in the source) when no pair scored |
| Similarity.GridCount | Glove.js:70-80 | when no token is empty, every token pair of two sections is scored |
| Similarity.RowCount | Glove.js:72-79 | when no token is empty, the innermost loop scores every token of tokens2 |
| Similarity.PairCount | Glove.js:83-86 | when both sections have a token and no token is empty, the section pair adds exactly one average |
| Similarity.SectionRowCount | Glove.js:64-87 | under the same conditions, every section of sections2 adds one average to the row |
| Similarity.TextCount | Glove.js:62-88 | when every section has a token and no token is empty, every section pair contributes: `similarityCount` is the product of the numbers of sections |
| Similarity.TokenizeScorable | Glove.js:55-56 | the tokenizer's output has a token in every section and no empty token |
| Similarity.TextScoreCount | Glove.js:53-93 | for two texts, `similarityCount = |sections1| * |sections2|`, and the score is undefined exactly when one text has no section |
| Similarity.AverageInUnit | Glove.js:83-91 | an average of scores in [0, 1] is in [0, 1] |
| Similarity.RowBounded | Glove.js:72-79 | with word scores in [0, 1], the innermost loop's sum stays between 0 and its count |
| Similarity.GridBounded | Glove.js:70-80 | with word scores in [0, 1], `sectionSimilarity` stays between 0 and `wordCount` |
| Similarity.PairBounded | Glove.js:83-86 | with word scores in [0, 1], the average a section pair adds is in [0, 1] |
| Similarity.SectionRowBounded | Glove.js:64-87 | with word scores in [0, 1], the section-pair averages of one row sum to between 0 and their count |
| Similarity.TextBounded | Glove.js:62-88 | with word scores in [0, 1], the running total of section-pair averages stays between 0 and `similarityCount` |
| Similarity.FullJaroWinkInUnit | Glove.js:40-41 | with fullJaroWink every word score is a Jaro-Winkler score, in [0, 1] |
| Similarity.FullJaroWinkTextScore | Glove.js:53-93 | with fullJaroWink the text score is defined exactly when both texts have a section, and then lies in [0, 1] |
| Similarity.FullJaroWinkIgnoresVectors | Glove.js:33-94 | with fullJaroWink the word vectors and the cosine are never consulted: any two instances give the same text score |
| Similarity.TextSame | Glove.js:62-88 | two word scores that agree on every pair give the same total and count (the running sums depend on the word score only) |

## Left out

- The constructor (Glove.js:7-31) is not modelled: it reads the vector
  file, parses floats and precomputes norms. That is I/O and floating
  point. An instance is given as its word-vector map.
- `numeric.dot` and the `ml-matrix` norms (Glove.js:27, 45-48) are
  foreign libraries over IEEE floats. The cosine of two vectors is an
  uninterpreted function carried by the instance, so the model proves
  nothing about the cosine's range.
- IEEE-754 rounding in the Jaro-Winkler formula and in the averages is
  not modelled: all arithmetic is on exact reals.
- The `NaN` of `0 / 0` at Glove.js:91 is modelled as `None`.
- The word-vector store is a map. Keys a JavaScript object inherits from
  its prototype, such as `"constructor"`, are not modelled.
- Strings are sequences of characters. JavaScript indexes and measures
  them in UTF-16 code units, so surrogate pairs are not modelled. The `\s`
  test is the explicit list of characters JavaScript's `\s` matches.
- Entries of `config.newcharacters` are delimiters with a string
  character and a name. Entries of other shapes, which would make `find`
  fail or never match, are not modelled. A missing
  `config.newcharacters` is the empty list.
- The unused `Timer` import (Glove.js:4) is not modelled.
- Symmetry of `jaroWinklerDistance` is not claimed. The code does not
  promise it.
- Similarity.TokenRowSimilarity, Similarity.SectionPairSimilarity,
  Similarity.SectionRowSimilarity, Similarity.SectionsSimilarity: the four
  nested loops of `textCosineSimilarity` are four methods rather than one
  body, and each receives the word score it sums as a ghost parameter.
