/**
 * The sentence-pattern analysis (`analyzeSentencePatterns`): dispersion of
 * sentence lengths (coefficient of variation) and repeated sentence openers.
 */
module SentencePatterns {
  import opened Text
  import opened Counting

  /**
   * `{ score, metrics }`, keeping the metrics the analysis feeds on:
   * `sentenceCount`, `avgLength` (as `parseFloat` reads its `toFixed(1)` string)
   * and `repetitiveStarters` (absent metrics read as 0).
   */
  datatype SentenceResult = SentenceResult(score: nat, sentenceCount: nat, avgLength: real, repetitiveStarters: nat)

  /** `text.split(/[.!?]+/).map((s) => s.trim()).filter((s) => s.length > 10)`. */
  function Sentences(text: string): seq<string> {
    var pieces := SplitOn(text, IsSentenceEnd);
    Filter(seq(|pieces|, i requires 0 <= i < |pieces| => Trim(pieces[i])), IsLongSentence)
  }

  predicate IsLongSentence(s: string) {
    |s| > 10
  }

  /** `s.split(/\s+/).length`. */
  function WordCount(s: string): nat {
    |SplitOn(s, IsSpace)|
  }

  /** `sents.map((s) => s.split(/\s+/).length)`. */
  function Lengths(sents: seq<string>): (lens: seq<nat>)
    ensures |lens| == |sents|
    ensures forall i :: 0 <= i < |lens| ==> lens[i] >= 1
  {
    seq(|sents|, i requires 0 <= i < |sents| => WordCount(sents[i]))
  }

  function Sum(xs: seq<nat>): nat {
    if |xs| == 0 then 0 else Sum(xs[..|xs| - 1]) + xs[|xs| - 1]
  }

  /** Sum of the squared deviations from `m`. */
  function SumSquares(xs: seq<nat>, m: real): real {
    if |xs| == 0 then 0.0
    else
      var d := xs[|xs| - 1] as real - m;
      SumSquares(xs[..|xs| - 1], m) + d * d
  }

  /** The mean of a non-empty sequence. */
  function Mean(xs: seq<nat>): (m: real)
    requires |xs| > 0
    ensures m >= 0.0
  {
    NonNegativeRatio(Sum(xs) as real, |xs| as real);
    Sum(xs) as real / |xs| as real
  }

  lemma NonNegativeRatio(a: real, b: real)
    requires a >= 0.0 && b > 0.0
    ensures a / b >= 0.0
  {
    assert (a / b) * b == a;
  }

  /** The population variance of a non-empty sequence. */
  function Variance(xs: seq<nat>): real
    requires |xs| > 0
  {
    SumSquares(xs, Mean(xs)) / |xs| as real
  }

  /**
   * `cv > 0.7 ? 15 : cv > 0.5 ? 8 : cv > 0.3 ? 3 : 0` with `cv = sqrt(v) / avg`
   * (and `cv = 0` when `avg` is not positive), decided on squares so that no
   * square root is needed; `CvBucketMatchesRatio` shows the two agree.
   */
  function CvBucket(v: real, avg: real): nat {
    if avg <= 0.0 then 0
    else if v > 0.49 * avg * avg then 15
    else if v > 0.25 * avg * avg then 8
    else if v > 0.09 * avg * avg then 3
    else 0
  }

  /** The opener of a sentence: its first three words, space-joined and lower-cased. */
  function Starter(s: string): string {
    LowerStr(JoinSpace(Take(SplitOn(s, IsSpace), 3)))
  }

  function Starters(sents: seq<string>): (r: seq<string>)
    ensures |r| == |sents|
  {
    seq(|sents|, i requires 0 <= i < |sents| => Starter(sents[i]))
  }

  /** What an opener seen `c` times adds to `rs`. */
  function StarterWeight(c: nat): nat {
    if c >= 3 then (c - 2) * 2 else 0
  }

  /** `rs` over the openers listed in `keys`, counted in `items`. */
  function StarterPenalty(keys: seq<string>, items: seq<string>): nat {
    if |keys| == 0 then 0
    else StarterPenalty(keys[..|keys| - 1], items) + StarterWeight(multiset(items)[keys[|keys| - 1]])
  }

  /** The scoring of `analyzeSentencePatterns` once the sentences are known. */
  function ScoreSentences(sents: seq<string>): SentenceResult {
    if |sents| < 3 then SentenceResult(5, |sents|, 0.0, 0)
    else
      var lens := Lengths(sents);
      var avg := Mean(lens);
      var starters := Starters(sents);
      var rs := StarterPenalty(Dedup(starters), starters);
      SentenceResult(CvBucket(Variance(lens), avg) + Min(rs, 10), |sents|, RoundTo1(avg), rs)
  }

  /** `analyzeSentencePatterns(text)` as a value; the empty text stands for a missing one. */
  function SentencePatternsOf(text: string): SentenceResult {
    if |text| == 0 then SentenceResult(0, 0, 0.0, 0) else ScoreSentences(Sentences(text))
  }

  /** The `Object.values(sp).forEach` loop accumulating `rs`. */
  method SumStarterPenalty(sp: map<string, nat>, keys: seq<string>, ghost all: seq<string>) returns (rs: nat)
    requires forall i :: 0 <= i < |keys| ==> keys[i] in sp && sp[keys[i]] == multiset(all)[keys[i]]
    ensures rs == StarterPenalty(keys, all)
  {
    rs := 0;
    var j := 0;
    while j < |keys|
      invariant 0 <= j <= |keys|
      invariant rs == StarterPenalty(keys[..j], all)
    {
      var c := sp[keys[j]];
      assert keys[..j + 1][..j] == keys[..j];
      if c >= 3 {
        rs := rs + (c - 2) * 2;
      }
      j := j + 1;
    }
    assert keys[..j] == keys;
  }

  /** `analyzeSentencePatterns`. */
  method AnalyzeSentencePatterns(text: string) returns (r: SentenceResult)
    ensures r == SentencePatternsOf(text)
  {
    if |text| == 0 {
      return SentenceResult(0, 0, 0.0, 0);
    }
    r := ScoreSentencesLoop(Sentences(text));
  }

  /** The body of `analyzeSentencePatterns` after the sentences are split off. */
  method ScoreSentencesLoop(sents: seq<string>) returns (r: SentenceResult)
    ensures r == ScoreSentences(sents)
  {
    if |sents| < 3 {
      return SentenceResult(5, |sents|, 0.0, 0);
    }
    var lens := Lengths(sents);
    var avg := Mean(lens);
    var v := Variance(lens);
    var starters := Starters(sents);
    assert [] + starters == starters;
    var sp, keys := CountAll(map[], [], starters, []);
    TallyLookup(sp, keys, starters);
    var rs := SumStarterPenalty(sp, keys, starters);
    var score := CvBucket(v, avg);
    score := score + (if rs <= 10 then rs else 10);
    r := SentenceResult(score, |sents|, RoundTo1(avg), rs);
  }

  lemma {:induction false} SumAtLeast(xs: seq<nat>)
    requires forall i :: 0 <= i < |xs| ==> xs[i] >= 1
    ensures Sum(xs) >= |xs|
  {
    if |xs| > 0 {
      SumAtLeast(xs[..|xs| - 1]);
    }
  }

  lemma {:induction false} SumSquaresNonNegative(xs: seq<nat>, m: real)
    ensures SumSquares(xs, m) >= 0.0
  {
    if |xs| > 0 {
      SumSquaresNonNegative(xs[..|xs| - 1], m);
      var d := xs[|xs| - 1] as real - m;
      assert d * d >= 0.0;
    }
  }

  /** Every sentence has at least one word, so the mean length is at least 1, and the variance is non-negative. */
  lemma LengthStatistics(lens: seq<nat>)
    requires |lens| > 0
    requires forall i :: 0 <= i < |lens| ==> lens[i] >= 1
    ensures Mean(lens) >= 1.0
    ensures Variance(lens) >= 0.0
  {
    SumAtLeast(lens);
    SumSquaresNonNegative(lens, Mean(lens));
    RatioAtLeastOne(Sum(lens) as real, |lens| as real);
    NonNegativeRatio(SumSquares(lens, Mean(lens)), |lens| as real);
  }

  lemma RatioAtLeastOne(a: real, b: real)
    requires a >= b > 0.0
    ensures a / b >= 1.0
  {
    assert (a / b) * b == a;
  }

  /** For non-negative reals, comparing squares decides the comparison. */
  lemma SquareMonotone(a: real, b: real)
    requires a >= 0.0 && b >= 0.0
    ensures a > b <==> a * a > b * b
  {
    assert a * a - b * b == (a - b) * (a + b);
    if a > b {
      ProductPositive(a - b, a + b);
    } else {
      assert (b - a) * (b + a) >= 0.0;
    }
  }

  lemma ProductPositive(x: real, y: real)
    requires x > 0.0 && y > 0.0
    ensures x * y > 0.0
  {
  }

  /** `sd / avg > t` exactly when `sd * sd > t * t * avg * avg`, for `sd >= 0`, `avg > 0 ` and `t >= 0`. */
  lemma RatioAbove(sd: real, avg: real, t: real)
    requires sd >= 0.0 && avg > 0.0 && t >= 0.0
    ensures sd / avg > t <==> sd * sd > (t * t) * avg * avg
  {
    var q := sd / avg;
    assert q * avg == sd;
    assert q > t <==> sd > t * avg;
    SquareMonotone(sd, t * avg);
    assert (t * avg) * (t * avg) == (t * t) * avg * avg;
  }

  /**
   * The square-based bucket is the source's bucket on `cv = sqrt(v) / avg`: given
   * any `sd >= 0` with `sd * sd == v`, 15 exactly when `cv > 0.7`, 8 exactly when
   * `0.5 < cv <= 0.7`, 3 exactly when `0.3 < cv <= 0.5`, and 0 otherwise.
   */
  lemma CvBucketMatchesRatio(v: real, avg: real, sd: real)
    requires avg > 0.0 && sd >= 0.0 && sd * sd == v
    ensures var cv := sd / avg;
      && (CvBucket(v, avg) == 15 <==> cv > 0.7)
      && (CvBucket(v, avg) == 8 <==> 0.5 < cv <= 0.7)
      && (CvBucket(v, avg) == 3 <==> 0.3 < cv <= 0.5)
      && (CvBucket(v, avg) == 0 <==> cv <= 0.3)
  {
    RatioAbove(sd, avg, 0.7);
    RatioAbove(sd, avg, 0.5);
    RatioAbove(sd, avg, 0.3);
  }

  /** `rs` is positive exactly when some listed opener occurs three times or more. */
  lemma {:induction false} StarterPenaltyPositive(keys: seq<string>, items: seq<string>)
    ensures StarterPenalty(keys, items) > 0 <==> exists i :: 0 <= i < |keys| && multiset(items)[keys[i]] >= 3
  {
    if |keys| > 0 {
      var init := keys[..|keys| - 1];
      StarterPenaltyPositive(init, items);
      if exists i :: 0 <= i < |init| && multiset(items)[init[i]] >= 3 {
        var i :| 0 <= i < |init| && multiset(items)[init[i]] >= 3;
        assert keys[i] == init[i];
      }
      if exists i :: 0 <= i < |keys| && multiset(items)[keys[i]] >= 3 {
        var i :| 0 <= i < |keys| && multiset(items)[keys[i]] >= 3;
        if i < |init| {
          assert init[i] == keys[i];
        }
      }
    }
  }

  /**
   * Three or more sentences score the dispersion bucket (0, 3, 8 or 15) plus the
   * opener penalty capped at 10, so at most 25, and report a mean length of at
   * least 1, which rounding to one decimal keeps.
   */
  lemma ScoreSentencesRange(sents: seq<string>)
    requires |sents| >= 3
    ensures var r := ScoreSentences(sents);
      && r.sentenceCount == |sents|
      && r.score <= 25
      && r.score - Min(r.repetitiveStarters, 10) in {0, 3, 8, 15}
      && r.avgLength >= 1.0
  {
    LengthStatistics(Lengths(sents));
    RoundTo1AtLeast(Mean(Lengths(sents)), 1);
  }

  /** Over the distinct openers, the penalty is positive exactly when some opener occurs three times or more. */
  lemma DistinctStarterPenaltyPositive(items: seq<string>)
    ensures StarterPenalty(Dedup(items), items) > 0 <==>
      exists i :: 0 <= i < |items| && multiset(items)[items[i]] >= 3
  {
    var keys := Dedup(items);
    StarterPenaltyPositive(keys, items);
    if StarterPenalty(keys, items) > 0 {
      var k :| 0 <= k < |keys| && multiset(items)[keys[k]] >= 3;
      assert keys[k] in items;
      var i :| 0 <= i < |items| && items[i] == keys[k];
    }
    if exists i :: 0 <= i < |items| && multiset(items)[items[i]] >= 3 {
      var i :| 0 <= i < |items| && multiset(items)[items[i]] >= 3;
      OftenListed(keys, items, items[i]);
    }
  }

  lemma OftenListed(keys: seq<string>, items: seq<string>, x: string)
    requires x in keys && multiset(items)[x] >= 3
    ensures exists k :: 0 <= k < |keys| && multiset(items)[keys[k]] >= 3
  {
    var k :| 0 <= k < |keys| && keys[k] == x;
  }

  /** The opener penalty is positive exactly when three or more sentences share their opener. */
  lemma RepeatedStartersPenalized(sents: seq<string>)
    requires |sents| >= 3
    ensures var starters := Starters(sents);
      ScoreSentences(sents).repetitiveStarters > 0 <==>
        exists i :: 0 <= i < |starters| && multiset(starters)[starters[i]] >= 3
  {
    var starters := Starters(sents);
    assert ScoreSentences(sents).repetitiveStarters == StarterPenalty(Dedup(starters), starters);
    DistinctStarterPenaltyPositive(starters);
  }

  /**
   * Missing text scores 0; fewer than three sentences longer than ten characters
   * score 5; otherwise the score is the dispersion bucket (0, 3, 8 or 15) plus
   * the opener penalty capped at 10, so it lies in [0, 25], the reported mean
   * length is at least 1, and the penalty is positive exactly when three or
   * more sentences share their first three words.
   */
  lemma SentencePatternsCorrect(text: string)
    ensures var r := SentencePatternsOf(text);
      && (|text| == 0 ==> r.score == 0)
      && (|text| > 0 && |Sentences(text)| < 3 ==> r.score == 5 && r.sentenceCount == |Sentences(text)|)
      && (|text| > 0 && |Sentences(text)| >= 3 ==>
            var starters := Starters(Sentences(text));
            && r.sentenceCount == |Sentences(text)|
            && r.score <= 25
            && r.score - Min(r.repetitiveStarters, 10) in {0, 3, 8, 15}
            && r.avgLength >= 1.0
            && (r.repetitiveStarters > 0 <==> exists i :: 0 <= i < |starters| && multiset(starters)[starters[i]] >= 3))
  {
    if |text| > 0 && |Sentences(text)| >= 3 {
      ScoreSentencesRange(Sentences(text));
      RepeatedStartersPenalized(Sentences(text));
    }
  }
}
