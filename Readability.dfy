/**
 * Readability (`calculateReadingMetrics`: Flesch-Kincaid grade level and Flesch
 * reading ease) and the grade-level consistency across paragraphs
 * (`analyzeWritingConsistency`).
 */
module Readability {
  import opened Text

  /** `{ gradeLevel, fleschScore }`, each as `parseFloat` reads its `toFixed(1)` string. */
  datatype ReadingMetrics = ReadingMetrics(gradeLevel: real, fleschScore: real)

  /** `{ score, consistency }`. */
  datatype ConsistencyResult = ConsistencyResult(score: nat, consistency: nat)

  predicate IsLowerAscii(c: char) {
    'a' <= c <= 'z'
  }

  predicate IsVowel(c: char) {
    c == 'a' || c == 'e' || c == 'i' || c == 'o' || c == 'u' || c == 'y'
  }

  /** `w.toLowerCase().replace(/[^a-z]/g, "")`. */
  function Letters(w: string): (c: string)
    ensures |c| <= |w|
    ensures forall i :: 0 <= i < |c| ==> IsLowerAscii(c[i])
  {
    Filter(LowerStr(w), IsLowerAscii)
  }

  /** The number of maximal runs of vowels in `s` (`s.match(/[aeiouy]+/g).length`). */
  function VowelRuns(s: string): nat {
    if |s| == 0 then 0
    else
      var starts := IsVowel(s[|s| - 1]) && (|s| == 1 || !IsVowel(s[|s| - 2]));
      VowelRuns(s[..|s| - 1]) + (if starts then 1 else 0)
  }

  /** The syllable estimate of one word: vowel runs, one less for a final silent `e`, at least 1. */
  function Syllables(w: string): nat {
    var c := Letters(w);
    var cnt := VowelRuns(c);
    var cnt' := if |c| > 0 && c[|c| - 1] == 'e' && cnt > 1 then cnt - 1 else cnt;
    if cnt' >= 1 then cnt' else 1
  }

  predicate NonBlankSentence(s: string) {
    |Trim(s)| > 0
  }

  predicate NonEmptyWord(w: string) {
    |w| > 0
  }

  function ReadingSentences(text: string): seq<string> {
    Filter(SplitOn(text, IsSentenceEnd), NonBlankSentence)
  }

  function Words(text: string): seq<string> {
    Filter(SplitOn(text, IsSpace), NonEmptyWord)
  }

  function SyllableTotal(words: seq<string>): nat {
    if |words| == 0 then 0 else SyllableTotal(words[..|words| - 1]) + Syllables(words[|words| - 1])
  }

  /** `0.39 * awps + 11.8 * aspw - 15.59`, clamped to [0, 20] and rounded to one decimal. */
  function Grade(awps: real, aspw: real): real {
    RoundTo1(Clamp(0.39 * awps + 11.8 * aspw - 15.59, 0.0, 20.0))
  }

  /** `206.835 - 1.015 * awps - 84.6 * aspw`, clamped to [0, 100] and rounded to one decimal. */
  function Flesch(awps: real, aspw: real): real {
    RoundTo1(Clamp(206.835 - 1.015 * awps - 84.6 * aspw, 0.0, 100.0))
  }

  /** The metrics from the sentence, word and syllable counts. */
  function MetricsFromCounts(sentences: nat, words: nat, syllables: nat): ReadingMetrics
    requires sentences > 0 && words > 0
  {
    var awps := words as real / sentences as real;
    var aspw := syllables as real / words as real;
    ReadingMetrics(Grade(awps, aspw), Flesch(awps, aspw))
  }

  /** `calculateReadingMetrics(text)` as a value; the empty text stands for a missing one. */
  function ReadingMetricsOf(text: string): ReadingMetrics {
    if |text| < 50 then ReadingMetrics(0.0, 0.0)
    else
      var sents := ReadingSentences(text);
      var words := Words(text);
      if |sents| == 0 || |words| == 0 then ReadingMetrics(0.0, 0.0)
      else MetricsFromCounts(|sents|, |words|, SyllableTotal(words))
  }

  /** The `words.forEach` loop accumulating `syl`. */
  method CountSyllables(words: seq<string>) returns (syl: nat)
    ensures syl == SyllableTotal(words)
  {
    syl := 0;
    var i := 0;
    while i < |words|
      invariant 0 <= i <= |words|
      invariant syl == SyllableTotal(words[..i])
    {
      assert words[..i + 1][..i] == words[..i];
      syl := syl + Syllables(words[i]);
      i := i + 1;
    }
    assert words[..i] == words;
  }

  /** `calculateReadingMetrics`. */
  method CalculateReadingMetrics(text: string) returns (m: ReadingMetrics)
    ensures m == ReadingMetricsOf(text)
  {
    if |text| < 50 {
      return ReadingMetrics(0.0, 0.0);
    }
    var sents := ReadingSentences(text);
    var words := Words(text);
    if |sents| == 0 || |words| == 0 {
      return ReadingMetrics(0.0, 0.0);
    }
    var syl := CountSyllables(words);
    m := MetricsFromCounts(|sents|, |words|, syl);
  }

  /** There are never more vowel runs than characters, and none in a text without vowels. */
  lemma {:induction false} VowelRunsBound(s: string)
    ensures VowelRuns(s) <= |s|
    ensures (forall i :: 0 <= i < |s| ==> !IsVowel(s[i])) ==> VowelRuns(s) == 0
  {
    if |s| > 0 {
      VowelRunsBound(s[..|s| - 1]);
    }
  }

  /** Every word has at least one syllable, and at most one per letter. */
  lemma SyllablesRange(w: string)
    ensures 1 <= Syllables(w)
    ensures Syllables(w) <= if |w| == 0 then 1 else |w|
  {
    VowelRunsBound(Letters(w));
  }

  lemma {:induction false} SyllableTotalAtLeast(words: seq<string>)
    ensures SyllableTotal(words) >= |words|
  {
    if |words| > 0 {
      SyllableTotalAtLeast(words[..|words| - 1]);
      SyllablesRange(words[|words| - 1]);
    }
  }

  /**
   * Text under 50 characters, or without a non-blank sentence or a word, has
   * both metrics 0; otherwise the grade level lies in [0, 20] and the reading
   * ease in [0, 100], and every word counts at least one syllable.
   */
  lemma ReadingMetricsRange(text: string)
    ensures var m := ReadingMetricsOf(text);
      && (|text| < 50 ==> m == ReadingMetrics(0.0, 0.0))
      && 0.0 <= m.gradeLevel <= 20.0
      && 0.0 <= m.fleschScore <= 100.0
      && (|text| >= 50 && |Words(text)| > 0 ==> SyllableTotal(Words(text)) >= |Words(text)|)
  {
    SyllableTotalAtLeast(Words(text));
    if |text| >= 50 && |ReadingSentences(text)| > 0 && |Words(text)| > 0 {
      MetricsRange(|ReadingSentences(text)|, |Words(text)|, SyllableTotal(Words(text)));
    }
  }

  lemma MetricsRange(sentences: nat, words: nat, syllables: nat)
    requires sentences > 0 && words > 0
    ensures var m := MetricsFromCounts(sentences, words, syllables);
      0.0 <= m.gradeLevel <= 20.0 && 0.0 <= m.fleschScore <= 100.0
  {
    var awps := words as real / sentences as real;
    var aspw := syllables as real / words as real;
    RoundTo1AtMost(Clamp(0.39 * awps + 11.8 * aspw - 15.59, 0.0, 20.0), 20);
    RoundTo1AtMost(Clamp(206.835 - 1.015 * awps - 84.6 * aspw, 0.0, 100.0), 100);
  }

  /** Paragraphs of more than 100 characters once trimmed. */
  predicate IsLongParagraph(p: string) {
    |Trim(p)| > 100
  }

  function Paragraphs(text: string): seq<string> {
    Filter(SplitParagraphs(text), IsLongParagraph)
  }

  /** `paras.map((p) => parseFloat(this.calculateReadingMetrics(p).gradeLevel))`. */
  function Grades(paras: seq<string>): (gls: seq<real>)
    ensures |gls| == |paras|
  {
    seq(|paras|, i requires 0 <= i < |paras| => ReadingMetricsOf(paras[i]).gradeLevel)
  }

  function SumReal(xs: seq<real>): real {
    if |xs| == 0 then 0.0 else SumReal(xs[..|xs| - 1]) + xs[|xs| - 1]
  }

  function Abs(x: real): real {
    if x < 0.0 then -x else x
  }

  /** `Math.max(...xs.map((g) => Math.abs(g - avg)))` for a non-empty `xs`. */
  function MaxDeviation(xs: seq<real>, avg: real): real
    requires |xs| > 0
  {
    var d := Abs(xs[|xs| - 1] - avg);
    if |xs| == 1 then d else MaxReal(MaxDeviation(xs[..|xs| - 1], avg), d)
  }

  /** The thresholds of `analyzeWritingConsistency` on the largest deviation. */
  function ConsistencyFor(md: real): ConsistencyResult {
    if md > 5.0 then ConsistencyResult(20, 60)
    else if md > 3.0 then ConsistencyResult(10, 75)
    else if md > 2.0 then ConsistencyResult(5, 85)
    else ConsistencyResult(0, 100)
  }

  /** `analyzeWritingConsistency(text)` as a value; the empty text stands for a missing one. */
  function WritingConsistencyOf(text: string): ConsistencyResult {
    if |text| < 300 then ConsistencyResult(0, 100)
    else
      var paras := Paragraphs(text);
      if |paras| < 2 then ConsistencyResult(0, 100)
      else GradeConsistency(Grades(paras))
  }

  /** The verdict for the grade levels of the long paragraphs. */
  function GradeConsistency(gls: seq<real>): ConsistencyResult
    requires |gls| > 0
  {
    ConsistencyFor(MaxDeviation(gls, SumReal(gls) / |gls| as real))
  }

  /** The result is one of the four threshold rows, so consistency lies in [60, 100]. */
  lemma ConsistencyValues(text: string)
    ensures WritingConsistencyOf(text) in
      {ConsistencyResult(0, 100), ConsistencyResult(5, 85), ConsistencyResult(10, 75), ConsistencyResult(20, 60)}
    ensures 60 <= WritingConsistencyOf(text).consistency <= 100
    ensures WritingConsistencyOf(text).consistency < 80 <==> WritingConsistencyOf(text).score >= 10
  {
  }

  lemma {:induction false} SumOfCopies(xs: seq<real>, g: real)
    requires forall i :: 0 <= i < |xs| ==> xs[i] == g
    ensures SumReal(xs) == |xs| as real * g
  {
    if |xs| > 0 {
      SumOfCopies(xs[..|xs| - 1], g);
    }
  }

  lemma {:induction false} NoDeviation(xs: seq<real>, g: real)
    requires |xs| > 0
    requires forall i :: 0 <= i < |xs| ==> xs[i] == g
    ensures MaxDeviation(xs, g) == 0.0
  {
    if |xs| > 1 {
      NoDeviation(xs[..|xs| - 1], g);
    }
  }

  /** Equal grade levels deviate nowhere from their mean: full consistency. */
  lemma UniformGrades(gls: seq<real>)
    requires |gls| > 0
    requires forall i :: 0 <= i < |gls| ==> gls[i] == gls[0]
    ensures GradeConsistency(gls) == ConsistencyResult(0, 100)
  {
    var g := gls[0];
    SumOfCopies(gls, g);
    var n := |gls| as real;
    assert SumReal(gls) / n == g;
    NoDeviation(gls, g);
  }

  /** Paragraphs that all have the same grade level as the first are fully consistent. */
  lemma EqualGradesConsistent(text: string)
    requires forall i :: 0 <= i < |Paragraphs(text)| ==>
      ReadingMetricsOf(Paragraphs(text)[i]).gradeLevel == ReadingMetricsOf(Paragraphs(text)[0]).gradeLevel
    ensures WritingConsistencyOf(text) == ConsistencyResult(0, 100)
  {
    var paras := Paragraphs(text);
    if |text| >= 300 && |paras| >= 2 {
      UniformGrades(Grades(paras));
    }
  }
}
