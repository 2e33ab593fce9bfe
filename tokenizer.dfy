/** `Glove.MasterToken` (Glove.js:167-210) as the source runs it: one pass
    over the text that pushes sections and grows the current section's
    token array, then a pass that filters each section's tokens, then the
    removal of empty sections. */
module Tokenizer {
  import opened Wrappers
  import opened TokenizerSpec

  /** The scan (Glove.js:176-202): the sections pushed at delimiters, and
      the final section when it has a token. */
  method ScanSections(text: string, delimiterCharacters: seq<Delimiter>) returns (sections: seq<Section>)
    ensures sections == RawSections(delimiterCharacters, text)
  {
    sections := [];
    var tokens: seq<string> := [];
    var i := 0;
    while i < |text|
      invariant 0 <= i <= |text|
      invariant ScanUpTo(delimiterCharacters, text, i) == ScanState(sections, tokens)
    {
      var character := text[i];
      var delimiter := FindDelimiter(delimiterCharacters, character);
      if delimiter.Some? {
        sections := sections + [Section(tokens, delimiter)];
        tokens := [];
      } else if IsWhitespace(character) {
        tokens := tokens + [""];
      } else if |tokens| > 0 {
        tokens := tokens[|tokens| - 1 := tokens[|tokens| - 1] + [character]];
      }
      // Otherwise the source writes at index -1, outside the array: the
      // character is lost.
      i := i + 1;
    }
    if |tokens| > 0 {
      sections := sections + [Section(tokens, None)];
    }
  }

  /** The `forEach` pass (Glove.js:204-206): each section keeps only its
      tokens longer than one character. */
  method FilterTokens(raw: seq<Section>) returns (sections: seq<Section>)
    ensures sections == KeepLongTokens(raw)
  {
    sections := raw;
    var k := 0;
    while k < |sections|
      invariant 0 <= k <= |sections| == |raw|
      invariant forall m :: 0 <= m < k ==> sections[m] == KeepLongTokens(raw)[m]
      invariant forall m :: k <= m < |raw| ==> sections[m] == raw[m]
    {
      sections := sections[k := sections[k].(tokens := LongTokens(sections[k].tokens))];
      k := k + 1;
    }
  }

  /** Splits text into sections at the delimiter characters (the built-ins
      followed by extra) and into tokens at whitespace; returns the sections
      that keep a token longer than one character. */
  method MasterToken(text: string, extra: seq<Delimiter>) returns (result: seq<Section>)
    ensures result == Tokenize(Delimiters(extra), text)
    ensures forall sec :: sec in result ==> |sec.tokens| > 0
    ensures forall sec, t :: sec in result && t in sec.tokens ==>
      |t| > 1 && CleanToken(Delimiters(extra), text, t)
  {
    var delimiterCharacters := BuiltInDelimiters() + extra;
    var sections := ScanSections(text, delimiterCharacters);
    sections := FilterTokens(sections);
    result := NonEmptySections(sections);
    TokenizeWellFormed(delimiterCharacters, text);
  }
}
