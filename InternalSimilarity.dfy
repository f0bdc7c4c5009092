/**
 * The internal-similarity analysis (`calculateInternalSimilarity`): the mean
 * Jaccard similarity of the token sets of every pair of paragraphs, or, when the
 * text has fewer than two long paragraphs, of sentences three apart.
 */
module InternalSimilarity {
  import opened Text
  import opened Tokenizer

  /** `{ score, avgSimilarity }`, the latter as `parseFloat` reads its `toFixed(1)` string. */
  datatype SimilarityResult = SimilarityResult(score: nat, avgSimilarity: real)

  /** The running pair `ts, comp`: the sum of the similarities and the number of pairs compared. */
  datatype Totals = Totals(sum: real, comp: nat)

  const NoTotals := Totals(0.0, 0)

  function Add(a: Totals, b: Totals): Totals {
    Totals(a.sum + b.sum, a.comp + b.comp)
  }

  /** `new Set(this.tokenize(s))`. */
  function TokenSet(s: string): set<string> {
    set t | t in Tokenize(s)
  }

  /** `|a ∩ b| / |a ∪ b|`, defined when the union is not empty. */
  function Jaccard(a: set<string>, b: set<string>): real
    requires |a + b| > 0
  {
    |a * b| as real / |a + b| as real
  }

  /** The token sets of a sequence of texts, one per text. */
  function TokenSets(texts: seq<string>): (r: seq<set<string>>)
    ensures AreTokenSets(r, texts)
  {
    seq(|texts|, k requires 0 <= k < |texts| => TokenSet(texts[k]))
  }

  /** `sets` holds the token set of each text, in order. */
  ghost predicate AreTokenSets(sets: seq<set<string>>, texts: seq<string>) {
    && |sets| == |texts|
    && forall k {:trigger TokenSet(texts[k])} :: 0 <= k < |texts| ==> sets[k] == TokenSet(texts[k])
  }

  /** One comparison of two token sets: counted only when both are non-empty. */
  function Compare(t1: set<string>, t2: set<string>): Totals {
    if |t1| > 0 && |t2| > 0 then Totals(Jaccard(t1, t2), 1) else NoTotals
  }

  /** `comp > 0 ? ts / comp : 0`. */
  function Average(t: Totals): real {
    if t.comp > 0 then t.sum / t.comp as real else 0.0
  }

  /** Paragraphs with more than 50 characters once trimmed (kept untrimmed). */
  predicate IsLongParagraph(p: string) {
    |Trim(p)| > 50
  }

  /** Sentences with more than 30 characters once trimmed (kept untrimmed). */
  predicate IsLongSentence(s: string) {
    |Trim(s)| > 30
  }

  function Chunks(text: string): seq<string> {
    Filter(SplitParagraphs(text), IsLongParagraph)
  }

  function SentencesOf(text: string): seq<string> {
    Filter(SplitOn(text, IsSentenceEnd), IsLongSentence)
  }

  /**
   * The comparisons of the chunk pairs from `(i, j)` on, in the order of the
   * paragraph loops: `(i, j), (i, j + 1), ..., (i, n - 1)`, then
   * `(i + 1, i + 2), ...`, up to `(n - 2, n - 1)`. From `(0, 1)` on, these are
   * all the pairs `i < j`.
   */
  function PairTotals(sets: seq<set<string>>, i: nat, j: nat): Totals
    decreases |sets| - i, |sets| - j
  {
    if i >= |sets| then NoTotals
    else if j >= |sets| then PairTotals(sets, i + 1, i + 2)
    else Add(Compare(sets[i], sets[j]), PairTotals(sets, i, j + 1))
  }

  /** The comparisons of sentences `(k, k + 3)` for `k = i, i + 2, ...` while `k < |sets| - 3`. */
  function StrideTotals(sets: seq<set<string>>, i: nat): Totals
    decreases |sets| - i
  {
    if i + 3 >= |sets| then NoTotals else Add(Compare(sets[i], sets[i + 3]), StrideTotals(sets, i + 2))
  }

  function ParagraphScore(avg: real): nat {
    if avg > 0.4 then 20 else if avg > 0.3 then 12 else if avg > 0.2 then 5 else 0
  }

  function SentenceScore(avg: real): nat {
    if avg > 0.3 then 15 else if avg > 0.2 then 8 else 0
  }

  /** The paragraph-mode result for comparison totals with similarities in [0, 1]. */
  function ParagraphReport(t: Totals): SimilarityResult
    requires Bounded(t)
  {
    AverageRange(t);
    SimilarityResult(ParagraphScore(Average(t)), RoundTo1(Average(t) * 100.0))
  }

  /** The sentence-mode result for comparison totals with similarities in [0, 1]. */
  function SentenceReport(t: Totals): SimilarityResult
    requires Bounded(t)
  {
    AverageRange(t);
    SimilarityResult(SentenceScore(Average(t)), RoundTo1(Average(t) * 100.0))
  }

  /** Sentence mode, once the sentences are known. */
  function SentenceModeOf(sents: seq<string>): SimilarityResult {
    if |sents| < 4 then SimilarityResult(0, 0.0)
    else
      StrideBounds(TokenSets(sents), 0);
      SentenceReport(StrideTotals(TokenSets(sents), 0))
  }

  /** Paragraph mode, once the chunks are known. */
  function ParagraphModeOf(chunks: seq<string>): SimilarityResult {
    PairBounds(TokenSets(chunks), 0, 1);
    ParagraphReport(PairTotals(TokenSets(chunks), 0, 1))
  }

  /** `calculateInternalSimilarity(text)` as a value. */
  function InternalSimilarityOf(text: string): SimilarityResult {
    if |text| < 200 then SimilarityResult(0, 0.0)
    else
      var chunks := Chunks(text);
      if |chunks| < 2 then SentenceModeOf(SentencesOf(text)) else ParagraphModeOf(chunks)
  }

  /**
   * The sentence loop `for (i = 0; i < sents.length - 3; i += 2)`. The loop
   * computes each token set itself; `sets` names them for the contract.
   */
  method CompareStride(sents: seq<string>, ghost sets: seq<set<string>>) returns (t: Totals)
    requires AreTokenSets(sets, sents)
    ensures t == StrideTotals(sets, 0)
  {
    var ts := 0.0;
    var comp: nat := 0;
    var i: nat := 0;
    while i + 3 < |sents|
      invariant ts + StrideTotals(sets, i).sum == StrideTotals(sets, 0).sum
      invariant comp + StrideTotals(sets, i).comp == StrideTotals(sets, 0).comp
      decreases |sents| - i
    {
      var t1 := TokenSet(sents[i]);
      var t2 := TokenSet(sents[i + 3]);
      assert t1 == sets[i] && t2 == sets[i + 3];
      assert StrideTotals(sets, i) == Add(Compare(t1, t2), StrideTotals(sets, i + 2));
      if |t1| > 0 && |t2| > 0 {
        ts := ts + Jaccard(t1, t2);
        comp := comp + 1;
      }
      i := i + 2;
    }
    t := Totals(ts, comp);
  }

  /**
   * The inner loop `for (let j = i + 1; ...)`: chunk `i` compared with every
   * later chunk, which takes the running totals from pair `(i, i + 1)` on to
   * pair `(i + 1, i + 2)`.
   */
  method CompareRow(chunks: seq<string>, i: nat, ts: real, comp: nat, ghost sets: seq<set<string>>)
    returns (ts': real, comp': nat)
    requires i < |chunks|
    requires AreTokenSets(sets, chunks)
    ensures ts' + PairTotals(sets, i + 1, i + 2).sum == ts + PairTotals(sets, i, i + 1).sum
    ensures comp' + PairTotals(sets, i + 1, i + 2).comp == comp + PairTotals(sets, i, i + 1).comp
  {
    ts', comp' := ts, comp;
    var j := i + 1;
    while j < |chunks|
      invariant i + 1 <= j <= |chunks|
      invariant ts' + PairTotals(sets, i, j).sum == ts + PairTotals(sets, i, i + 1).sum
      invariant comp' + PairTotals(sets, i, j).comp == comp + PairTotals(sets, i, i + 1).comp
      decreases |chunks| - j
    {
      var t1 := TokenSet(chunks[i]);
      var t2 := TokenSet(chunks[j]);
      assert t1 == sets[i] && t2 == sets[j];
      assert PairTotals(sets, i, j) == Add(Compare(t1, t2), PairTotals(sets, i, j + 1));
      if |t1| > 0 && |t2| > 0 {
        ts' := ts' + Jaccard(t1, t2);
        comp' := comp' + 1;
      }
      j := j + 1;
    }
  }

  /** The paragraph loops over every pair `i < j`. */
  method ComparePairs(chunks: seq<string>, ghost sets: seq<set<string>>) returns (t: Totals)
    requires AreTokenSets(sets, chunks)
    ensures t == PairTotals(sets, 0, 1)
  {
    var ts := 0.0;
    var comp: nat := 0;
    var i: nat := 0;
    while i < |chunks|
      invariant i <= |chunks|
      invariant ts + PairTotals(sets, i, i + 1).sum == PairTotals(sets, 0, 1).sum
      invariant comp + PairTotals(sets, i, i + 1).comp == PairTotals(sets, 0, 1).comp
    {
      ts, comp := CompareRow(chunks, i, ts, comp, sets);
      i := i + 1;
    }
    t := Totals(ts, comp);
  }

  /** Sentence mode of `calculateInternalSimilarity`. */
  method SentenceMode(sents: seq<string>) returns (r: SimilarityResult)
    ensures r == SentenceModeOf(sents)
  {
    if |sents| < 4 {
      return SimilarityResult(0, 0.0);
    }
    var t := CompareStride(sents, TokenSets(sents));
    StrideBounds(TokenSets(sents), 0);
    r := SentenceReport(t);
  }

  /** Paragraph mode of `calculateInternalSimilarity`. */
  method ParagraphMode(chunks: seq<string>) returns (r: SimilarityResult)
    ensures r == ParagraphModeOf(chunks)
  {
    var t := ComparePairs(chunks, TokenSets(chunks));
    PairBounds(TokenSets(chunks), 0, 1);
    r := ParagraphReport(t);
  }

  /** `calculateInternalSimilarity`. */
  method CalculateInternalSimilarity(text: string) returns (r: SimilarityResult)
    ensures r == InternalSimilarityOf(text)
  {
    if |text| < 200 {
      return SimilarityResult(0, 0.0);
    }
    var chunks := Chunks(text);
    if |chunks| < 2 {
      r := SentenceMode(SentencesOf(text));
    } else {
      r := ParagraphMode(chunks);
    }
  }

  /**
   * A Jaccard similarity lies in [0, 1], and is 1 exactly when the two sets are equal.
   */
  lemma JaccardRange(a: set<string>, b: set<string>)
    requires |a + b| > 0
    ensures 0.0 <= Jaccard(a, b) <= 1.0
    ensures Jaccard(a, b) == 1.0 <==> a == b
  {
    SubsetCard(a * b, a + b);
    if a == b {
      assert a * b == a + b;
      RatioOfNats(|a * b|, |a + b|);
    } else {
      var x :| x in (a + b) && x !in (a * b);
      ProperSubsetCard(a * b, a + b, x);
      RatioOfNats(|a * b|, |a + b|);
    }
  }

  /** A ratio `k / n` of naturals with `k <= n` lies in [0, 1], and is 1 exactly when `k == n`. */
  lemma RatioOfNats(k: nat, n: nat)
    requires 0 < n && k <= n
    ensures 0.0 <= k as real / n as real <= 1.0
    ensures k as real / n as real == 1.0 <==> k == n
  {
    var q := k as real / n as real;
    assert q * n as real == k as real;
  }

  lemma SubsetCard(s: set<string>, t: set<string>)
    requires s <= t
    ensures |s| <= |t|
  {
    assert t == s + (t - s);
  }

  lemma ProperSubsetCard(s: set<string>, t: set<string>, x: string)
    requires s <= t && x in t && x !in s
    ensures |s| < |t|
  {
    SubsetCard(s, t - {x});
  }

  /** A comparison adds 0 or 1 to `comp`, and a similarity in [0, 1] to `ts`. */
  lemma CompareBounds(t1: set<string>, t2: set<string>)
    ensures var c := Compare(t1, t2);
      0.0 <= c.sum <= c.comp as real && c.comp <= 1
  {
    if |t1| > 0 && |t2| > 0 {
      SubsetCard(t1, t1 + t2);
      JaccardRange(t1, t2);
    }
  }

  ghost predicate Bounded(t: Totals) {
    0.0 <= t.sum <= t.comp as real
  }

  lemma {:induction false} PairBounds(sets: seq<set<string>>, i: nat, j: nat)
    ensures Bounded(PairTotals(sets, i, j))
    decreases |sets| - i, |sets| - j
  {
    if i < |sets| {
      if j < |sets| {
        CompareBounds(sets[i], sets[j]);
        PairBounds(sets, i, j + 1);
      } else {
        PairBounds(sets, i + 1, i + 2);
      }
    }
  }

  lemma {:induction false} StrideBounds(sets: seq<set<string>>, i: nat)
    ensures Bounded(StrideTotals(sets, i))
    decreases |sets| - i
  {
    if i + 3 < |sets| {
      CompareBounds(sets[i], sets[i + 3]);
      StrideBounds(sets, i + 2);
    }
  }

  /** The mean of similarities in [0, 1] lies in [0, 1]. */
  lemma AverageRange(t: Totals)
    requires Bounded(t)
    ensures 0.0 <= Average(t) <= 1.0
  {
    if t.comp > 0 {
      assert Average(t) * t.comp as real == t.sum;
    }
  }

  /** The paragraph-mode result is one of 0, 5, 12, 20, with a percentage in [0, 100]. */
  lemma ParagraphReportRange(t: Totals)
    requires Bounded(t)
    ensures ParagraphReport(t).score in {0, 5, 12, 20}
    ensures 0.0 <= ParagraphReport(t).avgSimilarity <= 100.0
  {
    AverageRange(t);
    RoundTo1AtMost(Average(t) * 100.0, 100);
  }

  /** The sentence-mode result is one of 0, 8, 15, with a percentage in [0, 100]. */
  lemma SentenceReportRange(t: Totals)
    requires Bounded(t)
    ensures SentenceReport(t).score in {0, 8, 15}
    ensures 0.0 <= SentenceReport(t).avgSimilarity <= 100.0
  {
    AverageRange(t);
    RoundTo1AtMost(Average(t) * 100.0, 100);
  }

  /** Sentence mode scores 0, 8 or 15 (0 with fewer than four sentences), and reports a percentage in [0, 100]. */
  lemma SentenceModeRange(sents: seq<string>)
    ensures var r := SentenceModeOf(sents);
      && r.score in {0, 8, 15}
      && (|sents| < 4 ==> r.score == 0)
      && 0.0 <= r.avgSimilarity <= 100.0
  {
    if |sents| >= 4 {
      StrideBounds(TokenSets(sents), 0);
      SentenceReportRange(StrideTotals(TokenSets(sents), 0));
    }
  }

  /** Paragraph mode scores 0, 5, 12 or 20, and reports a percentage in [0, 100]. */
  lemma ParagraphModeRange(chunks: seq<string>)
    ensures var r := ParagraphModeOf(chunks);
      && r.score in {0, 5, 12, 20}
      && 0.0 <= r.avgSimilarity <= 100.0
  {
    PairBounds(TokenSets(chunks), 0, 1);
    ParagraphReportRange(PairTotals(TokenSets(chunks), 0, 1));
  }

  /**
   * Text under 200 characters scores 0. With two or more long paragraphs the
   * score is one of 0, 5, 12, 20; otherwise (sentence mode) one of 0, 8, 15, and
   * 0 when fewer than four long sentences exist. The reported percentage lies
   * in [0, 100].
   */
  lemma InternalSimilarityRange(text: string)
    ensures var r := InternalSimilarityOf(text);
      && (|text| < 200 ==> r == SimilarityResult(0, 0.0))
      && (|text| >= 200 && |Chunks(text)| >= 2 ==> r.score in {0, 5, 12, 20})
      && (|text| >= 200 && |Chunks(text)| < 2 ==> r.score in {0, 8, 15})
      && (|text| >= 200 && |Chunks(text)| < 2 && |SentencesOf(text)| < 4 ==> r.score == 0)
      && 0.0 <= r.avgSimilarity <= 100.0
  {
    if |text| >= 200 {
      var chunks := Chunks(text);
      if |chunks| >= 2 {
        ParagraphModeRange(chunks);
      } else {
        SentenceModeRange(SentencesOf(text));
      }
    }
  }

  /** Comparisons of equal, non-empty token sets each add exactly 1. */
  lemma {:induction false} PairsOfCopies(sets: seq<set<string>>, i: nat, j: nat)
    requires |sets| > 0
    requires forall k :: 0 <= k < |sets| ==> sets[k] == sets[0]
    requires |sets[0]| > 0
    ensures PairTotals(sets, i, j).sum == PairTotals(sets, i, j).comp as real
    ensures i < j < |sets| ==> PairTotals(sets, i, j).comp > 0
    decreases |sets| - i, |sets| - j
  {
    if i < |sets| {
      if j < |sets| {
        var t := sets[0];
        SubsetCard(t, t + t);
        JaccardRange(t, t);
        PairsOfCopies(sets, i, j + 1);
        var rest := PairTotals(sets, i, j + 1);
        assert PairTotals(sets, i, j) == Add(Totals(1.0, 1), rest);
        assert (1 + rest.comp) as real == 1.0 + rest.comp as real;
      } else {
        PairsOfCopies(sets, i + 1, i + 2);
      }
    }
  }

  /** Totals whose every comparison was a full match report 20 and 100%. */
  lemma FullAverage(t: Totals)
    requires t.comp > 0 && t.sum == t.comp as real
    ensures ParagraphReport(t) == SimilarityResult(20, 100.0)
  {
    assert Average(t) == 1.0;
    assert RoundTo1(1.0 * 100.0) == 100.0;
  }

  /** Paragraph mode on copies of one paragraph that has tokens: full similarity, the top score 20 and 100%. */
  lemma CopiesScoreTop(chunks: seq<string>)
    requires |chunks| >= 2
    requires forall k :: 0 <= k < |chunks| ==> chunks[k] == chunks[0]
    requires |TokenSet(chunks[0])| > 0
    ensures ParagraphModeOf(chunks) == SimilarityResult(20, 100.0)
  {
    var sets := TokenSets(chunks);
    PairsOfCopies(sets, 0, 1);
    PairBounds(sets, 0, 1);
    FullAverage(PairTotals(sets, 0, 1));
  }
}
