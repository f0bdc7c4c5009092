/**
 * The normalizer/tokenizer and the n-gram generator of the originality engine
 * (`tokenize` and `generateNgrams` of `PlagiarismDetectionEngine`).
 */
module Tokenizer {
  import opened Text

  const StopwordCount := 74

  /** The engine's stopwords, numbered. */
  function Stopword(k: nat): string
    requires k < StopwordCount
  {
    match k
    case 0 => "the"
    case 1 => "a"
    case 2 => "an"
    case 3 => "and"
    case 4 => "or"
    case 5 => "but"
    case 6 => "in"
    case 7 => "on"
    case 8 => "at"
    case 9 => "to"
    case 10 => "for"
    case 11 => "of"
    case 12 => "with"
    case 13 => "by"
    case 14 => "from"
    case 15 => "as"
    case 16 => "is"
    case 17 => "was"
    case 18 => "are"
    case 19 => "were"
    case 20 => "been"
    case 21 => "be"
    case 22 => "have"
    case 23 => "has"
    case 24 => "had"
    case 25 => "do"
    case 26 => "does"
    case 27 => "did"
    case 28 => "will"
    case 29 => "would"
    case 30 => "could"
    case 31 => "should"
    case 32 => "may"
    case 33 => "might"
    case 34 => "must"
    case 35 => "shall"
    case 36 => "can"
    case 37 => "this"
    case 38 => "that"
    case 39 => "these"
    case 40 => "those"
    case 41 => "it"
    case 42 => "its"
    case 43 => "they"
    case 44 => "them"
    case 45 => "their"
    case 46 => "we"
    case 47 => "our"
    case 48 => "you"
    case 49 => "your"
    case 50 => "he"
    case 51 => "she"
    case 52 => "his"
    case 53 => "her"
    case 54 => "i"
    case 55 => "my"
    case 56 => "me"
    case 57 => "who"
    case 58 => "which"
    case 59 => "what"
    case 60 => "where"
    case 61 => "when"
    case 62 => "why"
    case 63 => "how"
    case 64 => "if"
    case 65 => "then"
    case 66 => "else"
    case 67 => "so"
    case 68 => "than"
    case 69 => "too"
    case 70 => "very"
    case 71 => "just"
    case 72 => "only"
    case 73 => "also"
    case _ => assert false; ""
  }

  /**
   * `text.toLowerCase().replace(/[^\w\s]/g, " ")`: letters lowered, and every
   * character that is neither a word character nor whitespace turned into a space.
   */
  function Normalize(text: string): (r: string)
    ensures |r| == |text|
    ensures forall i :: 0 <= i < |r| ==> IsSpace(r[i]) || (IsWordChar(r[i]) && !IsUpper(r[i]))
  {
    seq(|text|, i requires 0 <= i < |text| =>
      var c := Lower(text[i]);
      if IsWordChar(c) || IsSpace(c) then c else ' ')
  }

  /** The filter of `tokenize`: longer than two characters and not a stopword. */
  predicate IsToken(w: string) {
    |w| > 2 && forall k :: 0 <= k < StopwordCount ==> Stopword(k) != w
  }

  /** A token is a run of lower-case word characters. */
  predicate IsLowerWord(w: string) {
    forall j :: 0 <= j < |w| ==> IsWordChar(w[j]) && !IsUpper(w[j])
  }

  /** `tokenize(text)`: the whitespace-separated words of the normalized text that pass `IsToken`. */
  function Tokenize(text: string): (tokens: seq<string>)
    ensures forall i :: 0 <= i < |tokens| ==> IsToken(tokens[i]) && IsLowerWord(tokens[i])
  {
    var norm := Normalize(text);
    var words := SplitOn(norm, IsSpace);
    assert forall w :: w in words ==> IsLowerWord(w) by {
      forall w | w in words ensures IsLowerWord(w) {
        forall j | 0 <= j < |w| ensures IsWordChar(w[j]) && !IsUpper(w[j]) {
          assert w[j] in norm;
        }
      }
    }
    Filter(words, IsToken)
  }

  /** Tokenizing ignores letter case: lower-casing the text first changes nothing. */
  lemma TokenizeIgnoresCase(text: string)
    ensures Tokenize(LowerStr(text)) == Tokenize(text)
  {
    assert Normalize(LowerStr(text)) == Normalize(text);
  }

  /** Text without any word character yields no token at all. */
  lemma {:induction false} NoWordNoToken(text: string)
    requires forall i :: 0 <= i < |text| ==> !IsWordChar(text[i])
    ensures Tokenize(text) == []
  {
    var norm := Normalize(text);
    assert forall i :: 0 <= i < |norm| ==> IsSpace(norm[i]);
    var words := SplitOn(norm, IsSpace);
    var tokens := Filter(words, IsToken);
    if |tokens| > 0 {
      assert tokens[0] in words;
    }
  }

  /** `generateNgrams(tokens, n)` as a value: every window of `n` consecutive tokens, joined by spaces. */
  function Ngrams(tokens: seq<string>, n: nat): seq<string> {
    if |tokens| < n then []
    else seq(|tokens| - n + 1, i requires 0 <= i <= |tokens| - n => JoinSpace(tokens[i..i + n]))
  }

  /** `generateNgrams`: the for loop that pushes each window in turn. */
  method GenerateNgrams(tokens: seq<string>, n: nat) returns (ng: seq<string>)
    ensures ng == Ngrams(tokens, n)
    ensures |tokens| < n ==> ng == []
    ensures |tokens| >= n ==> |ng| == |tokens| - n + 1
    ensures forall i :: 0 <= i < |ng| ==> i + n <= |tokens| && ng[i] == JoinSpace(tokens[i..i + n])
  {
    if |tokens| < n {
      return [];
    }
    ng := [];
    var i := 0;
    while i <= |tokens| - n
      invariant 0 <= i <= |tokens| - n + 1
      invariant |ng| == i
      invariant forall k :: 0 <= k < i ==> ng[k] == JoinSpace(tokens[k..k + n])
    {
      ng := ng + [JoinSpace(tokens[i..i + n])];
      i := i + 1;
    }
  }
}
