/**
 * The repeated-phrase detector (`detectRepeatedPhrases`): counts every 4-, 5-,
 * 6- and 7-token n-gram of the text in one dictionary, and scores each n-gram
 * seen c >= 2 times with (c - 1) * 3, the total capped at 25.
 */
module RepeatedPhrases {
  import opened Text
  import opened Tokenizer
  import opened Counting
  import Vocabulary

  /** One reported phrase `{ phrase, count, contribution }`. */
  datatype RepeatedPhrase = RepeatedPhrase(phrase: string, count: nat, contribution: nat)

  /** The result `{ score, phrases }`. */
  datatype RepeatResult = RepeatResult(score: nat, phrases: seq<RepeatedPhrase>)

  const ScoreCap: nat := 25
  const ReportLimit: nat := 5

  /** The n-grams of sizes 4 up to `n - 1`, in the order the loop over `n` feeds them to the dictionary. */
  function NgramsBelow(tokens: seq<string>, n: nat): seq<string> {
    if n <= 4 then [] else NgramsBelow(tokens, n - 1) + Ngrams(tokens, n - 1)
  }

  /** Every 4..7-gram of the token sequence. */
  function AllNgrams(tokens: seq<string>): seq<string> {
    NgramsBelow(tokens, 8)
  }

  /** What an n-gram seen `c` times adds to the score. */
  function Contribution(c: nat): nat {
    if c >= 2 then (c - 1) * 3 else 0
  }

  /** The uncapped score: the contributions of the listed keys' counts in `items`. */
  function RepeatTotal(keys: seq<string>, items: seq<string>): nat {
    if |keys| == 0 then 0
    else RepeatTotal(keys[..|keys| - 1], items) + Contribution(multiset(items)[keys[|keys| - 1]])
  }

  /** The repeated keys, in key order, each with its count and contribution. */
  function Reported(keys: seq<string>, items: seq<string>): seq<RepeatedPhrase> {
    if |keys| == 0 then []
    else
      var k := keys[|keys| - 1];
      var c := multiset(items)[k];
      Reported(keys[..|keys| - 1], items) + (if c >= 2 then [RepeatedPhrase(k, c, Contribution(c))] else [])
  }

  /** The keys seen at least twice in `items`, in key order. */
  function RepeatedKeys(keys: seq<string>, items: seq<string>): seq<string> {
    Filter(keys, k => multiset(items)[k] >= 2)
  }

  /** `detectRepeatedPhrases(text)` as a value. */
  function RepeatedPhrasesOf(text: string): RepeatResult {
    if |text| < 100 then RepeatResult(0, [])
    else
      var all := AllNgrams(Tokenize(text));
      var keys := Dedup(all);
      var total := RepeatTotal(keys, all);
      RepeatResult(if total <= ScoreCap then total else ScoreCap, Take(Reported(keys, all), ReportLimit))
  }

  lemma TakeAppend(s: seq<RepeatedPhrase>, x: RepeatedPhrase, n: nat)
    ensures Take(s + [x], n) == if |Take(s, n)| < n then Take(s, n) + [x] else Take(s, n)
  {
    if |s| < n {
      assert Take(s + [x], n) == s + [x];
    } else {
      assert (s + [x])[..n] == s[..n];
    }
  }

  /** The outer loop of `detectRepeatedPhrases`: the n-grams for n = 4..7 counted into one dictionary. */
  method CountNgrams(tokens: seq<string>) returns (pc: map<string, nat>, keys: seq<string>)
    ensures IsTally(pc, keys, AllNgrams(tokens))
  {
    pc, keys := map[], [];
    var n := 4;
    while n <= 7
      invariant 4 <= n <= 8
      invariant IsTally(pc, keys, NgramsBelow(tokens, n))
    {
      var ng := GenerateNgrams(tokens, n);
      ghost var before := NgramsBelow(tokens, n);
      pc, keys := CountAll(pc, keys, ng, before);
      assert NgramsBelow(tokens, n + 1) == before + ng;
      n := n + 1;
    }
    assert NgramsBelow(tokens, n) == AllNgrams(tokens);
  }

  /** The pass over `Object.entries(pc)` (insertion order): the uncapped score and the first five repeats. */
  method ScoreEntries(pc: map<string, nat>, keys: seq<string>, ghost all: seq<string>)
    returns (score: nat, rp: seq<RepeatedPhrase>)
    requires forall i :: 0 <= i < |keys| ==> keys[i] in pc && pc[keys[i]] == multiset(all)[keys[i]]
    ensures score == RepeatTotal(keys, all)
    ensures rp == Take(Reported(keys, all), ReportLimit)
  {
    score, rp := 0, [];
    var j := 0;
    while j < |keys|
      invariant 0 <= j <= |keys|
      invariant score == RepeatTotal(keys[..j], all)
      invariant rp == Take(Reported(keys[..j], all), ReportLimit)
    {
      var p := keys[j];
      var c := pc[p];
      ghost var init := keys[..j];
      assert keys[..j + 1][..j] == init;
      assert RepeatTotal(keys[..j + 1], all) == RepeatTotal(init, all) + Contribution(c);
      assert Reported(keys[..j + 1], all) ==
        Reported(init, all) + (if c >= 2 then [RepeatedPhrase(p, c, Contribution(c))] else []);
      TakeAppend(Reported(init, all), RepeatedPhrase(p, c, Contribution(c)), ReportLimit);
      if c >= 2 {
        var ct := (c - 1) * 3;
        score := score + ct;
        if |rp| < 5 {
          rp := rp + [RepeatedPhrase(p, c, ct)];
        }
      }
      j := j + 1;
    }
    assert keys[..j] == keys;
  }

  /** `detectRepeatedPhrases`. */
  method DetectRepeatedPhrases(text: string) returns (r: RepeatResult)
    ensures r == RepeatedPhrasesOf(text)
  {
    if |text| < 100 {
      return RepeatResult(0, []);
    }
    var tokens := Tokenize(text);
    var pc, keys := CountNgrams(tokens);
    ghost var all := AllNgrams(tokens);
    TallyLookup(pc, keys, all);
    var score, rp := ScoreEntries(pc, keys, AllNgrams(tokens));
    r := RepeatResult(if score <= 25 then score else 25, rp);
  }

  /** Over distinct keys that all occur, the uncapped score is three times the surplus occurrences. */
  lemma {:induction false} RepeatTotalSurplus(keys: seq<string>, items: seq<string>)
    requires forall i, j :: 0 <= i < j < |keys| ==> keys[i] != keys[j]
    requires forall i :: 0 <= i < |keys| ==> keys[i] in items
    ensures RepeatTotal(keys, items) + 3 * |keys| == 3 * SumCounts(keys, items)
  {
    if |keys| > 0 {
      RepeatTotalSurplus(keys[..|keys| - 1], items);
      assert keys[|keys| - 1] in multiset(items);
    }
  }

  /** Reported entries are repeated keys with their true counts, and they are distinct. */
  lemma {:induction false} ReportedSound(keys: seq<string>, items: seq<string>)
    ensures forall e :: e in Reported(keys, items) ==>
      e.phrase in keys && e.count >= 2 && e.count == multiset(items)[e.phrase] && e.contribution == (e.count - 1) * 3
    ensures |Reported(keys, items)| == 0 <==> forall i :: 0 <= i < |keys| ==> multiset(items)[keys[i]] < 2
  {
    if |keys| > 0 {
      var init := keys[..|keys| - 1];
      ReportedSound(init, items);
      assert forall i :: 0 <= i < |init| ==> init[i] == keys[i];
    }
  }

  /** Appending a key keeps the repeated keys so far and adds the key when it repeats. */
  lemma RepeatedKeysAppend(init: seq<string>, x: string, items: seq<string>)
    ensures RepeatedKeys(init + [x], items) ==
      RepeatedKeys(init, items) + (if multiset(items)[x] >= 2 then [x] else [])
  {
    FilterAppend(init, x, k => multiset(items)[k] >= 2);
  }

  /** The report lists exactly the repeated keys, in key order. */
  lemma {:induction false} ReportedInOrder(keys: seq<string>, items: seq<string>)
    ensures |Reported(keys, items)| == |RepeatedKeys(keys, items)|
    ensures forall i :: 0 <= i < |Reported(keys, items)| ==> Reported(keys, items)[i].phrase == RepeatedKeys(keys, items)[i]
  {
    if |keys| > 0 {
      var init := keys[..|keys| - 1];
      var x := keys[|keys| - 1];
      assert keys == init + [x];
      ReportedInOrder(init, items);
      RepeatedKeysAppend(init, x, items);
    }
  }

  /** Over distinct keys, no phrase is reported twice. */
  lemma {:induction false} ReportedDistinct(keys: seq<string>, items: seq<string>)
    requires forall i, j :: 0 <= i < j < |keys| ==> keys[i] != keys[j]
    ensures forall i, j :: 0 <= i < j < |Reported(keys, items)| ==> Reported(keys, items)[i].phrase != Reported(keys, items)[j].phrase
  {
    if |keys| > 0 {
      var init := keys[..|keys| - 1];
      var x := keys[|keys| - 1];
      ReportedDistinct(init, items);
      ReportedSound(init, items);
      assert x !in init;
    }
  }

  /** Over distinct keys, the report keeps the first five repeated keys, in key order, each once. */
  lemma FirstFiveRepeats(keys: seq<string>, items: seq<string>)
    requires forall i, j :: 0 <= i < j < |keys| ==> keys[i] != keys[j]
    ensures var ps := Take(Reported(keys, items), ReportLimit);
      var rk := RepeatedKeys(keys, items);
      && |ps| == Min(|rk|, ReportLimit)
      && (forall i :: 0 <= i < |ps| ==> ps[i].phrase == rk[i])
      && (forall i, j :: 0 <= i < j < |ps| ==> ps[i].phrase != ps[j].phrase)
  {
    var rep := Reported(keys, items);
    ReportedInOrder(keys, items);
    ReportedDistinct(keys, items);
    var ps := Take(rep, ReportLimit);
    assert forall i :: 0 <= i < |ps| ==> ps[i] == rep[i];
  }

  /** The repeated n-grams, in first-seen order: every n-gram seen twice or more, and nothing else. */
  lemma RepeatedKeysExact(all: seq<string>)
    ensures forall k :: k in RepeatedKeys(Dedup(all), all) <==> multiset(all)[k] >= 2
  {
    var keys := Dedup(all);
    forall k | multiset(all)[k] >= 2 ensures k in RepeatedKeys(keys, all) {
      assert k in all;
      var i :| 0 <= i < |all| && all[i] == k;
      assert all[i] in keys;
      var j :| 0 <= j < |keys| && keys[j] == k;
    }
  }

  /**
   * What the detector reports for the n-grams `all` of a long enough text: the
   * score is 3 times the number of n-gram occurrences beyond the first, capped
   * at 25; every reported phrase is an n-gram seen c >= 2 times, contributing
   * (c - 1) * 3; at most five are reported, namely the first five repeated
   * n-grams in first-seen order, each once; and nothing is reported exactly
   * when the score is 0.
   */
  predicate ReportsRepeats(all: seq<string>, r: RepeatResult) {
    && r.score == Min(3 * (|all| - |Dedup(all)|), ScoreCap)
    && |r.phrases| <= ReportLimit
    && (forall e :: e in r.phrases ==>
          e.phrase in all && e.count >= 2 && e.count == multiset(all)[e.phrase]
          && e.contribution == (e.count - 1) * 3)
    && (r.phrases == [] <==> r.score == 0)
    && var rk := RepeatedKeys(Dedup(all), all);
      && |r.phrases| == Min(|rk|, ReportLimit)
      && (forall i :: 0 <= i < |r.phrases| ==> r.phrases[i].phrase == rk[i])
      && (forall i, j :: 0 <= i < j < |r.phrases| ==> r.phrases[i].phrase != r.phrases[j].phrase)
  }

  /** Text under 100 characters scores 0 and reports no phrase; longer text reports its repeats. */
  lemma RepeatedPhrasesCorrect(text: string)
    ensures |text| < 100 ==> RepeatedPhrasesOf(text) == RepeatResult(0, [])
    ensures |text| >= 100 ==> ReportsRepeats(AllNgrams(Tokenize(text)), RepeatedPhrasesOf(text))
  {
    if |text| >= 100 {
      LongTextRepeats(text);
    }
  }

  /** The long-text branch of `RepeatedPhrasesCorrect`. */
  lemma LongTextRepeats(text: string)
    requires |text| >= 100
    ensures ReportsRepeats(AllNgrams(Tokenize(text)), RepeatedPhrasesOf(text))
  {
    var all := AllNgrams(Tokenize(text));
    var keys := Dedup(all);
    var rep := Reported(keys, all);
    var r := RepeatedPhrasesOf(text);
    assert r.score == Min(RepeatTotal(keys, all), ScoreCap) && r.phrases == Take(rep, ReportLimit);
    DistinctRepeatTotal(all);
    NothingReportedIffZero(all);
    ReportedSound(keys, all);
    assert forall e :: e in r.phrases ==> e in rep;
    FirstFiveRepeats(keys, all);
  }

  /** Over the distinct n-grams, the uncapped score is three times the occurrences beyond the first. */
  lemma DistinctRepeatTotal(all: seq<string>)
    ensures RepeatTotal(Dedup(all), all) == 3 * (|all| - |Dedup(all)|)
  {
    RepeatTotalSurplus(Dedup(all), all);
    DedupCountsSum(all);
  }

  /** Over the distinct n-grams, nothing is reported exactly when the uncapped score is 0. */
  lemma NothingReportedIffZero(all: seq<string>)
    ensures Reported(Dedup(all), all) == [] <==> RepeatTotal(Dedup(all), all) == 0
  {
    var keys := Dedup(all);
    DistinctRepeatTotal(all);
    ReportedSound(keys, all);
    if RepeatTotal(keys, all) == 0 {
      assert |keys| == |all|;
      forall i | 0 <= i < |keys| ensures multiset(all)[keys[i]] < 2 {
        SingleCounts(keys, all, i);
      }
    } else if Reported(keys, all) == [] {
      forall i | 0 <= i < |keys| ensures multiset(all)[keys[i]] == 1 {
        assert keys[i] in multiset(all);
      }
      AllOnesSum(keys, all);
      DedupCountsSum(all);
    }
  }

  /** When there are as many distinct keys as items, every key occurs once. */
  lemma SingleCounts(keys: seq<string>, items: seq<string>, i: nat)
    requires keys == Dedup(items) && |keys| == |items| && i < |keys|
    ensures multiset(items)[keys[i]] < 2
  {
    DedupCountsSum(items);
    if multiset(items)[keys[i]] >= 2 {
      SumCountsLarge(keys, items, i);
    }
  }

  /** A key counted twice or more pushes the sum over distinct occurring keys above their number. */
  lemma {:induction false} SumCountsLarge(keys: seq<string>, items: seq<string>, i: nat)
    requires forall k :: 0 <= k < |keys| ==> keys[k] in items
    requires i < |keys| && multiset(items)[keys[i]] >= 2
    ensures SumCounts(keys, items) > |keys|
  {
    var init := keys[..|keys| - 1];
    SumCountsAtLeast(init, items);
    if i < |keys| - 1 {
      SumCountsLarge(init, items, i);
    }
    assert keys[|keys| - 1] in multiset(items);
  }

  /** Keys that all occur have a count sum at least their number. */
  lemma {:induction false} SumCountsAtLeast(keys: seq<string>, items: seq<string>)
    requires forall k :: 0 <= k < |keys| ==> keys[k] in items
    ensures SumCounts(keys, items) >= |keys|
  {
    if |keys| > 0 {
      SumCountsAtLeast(keys[..|keys| - 1], items);
      assert keys[|keys| - 1] in multiset(items);
    }
  }

  /** Keys each counted once sum to their number. */
  lemma {:induction false} AllOnesSum(keys: seq<string>, items: seq<string>)
    requires forall i :: 0 <= i < |keys| ==> multiset(items)[keys[i]] == 1
    ensures SumCounts(keys, items) == |keys|
  {
    if |keys| > 0 {
      AllOnesSum(keys[..|keys| - 1], items);
    }
  }

  /** The distinct elements of a multiset. */
  function Support(m: multiset<string>): set<string> {
    set k | k in m
  }

  /** Adding occurrences never lowers the number of occurrences beyond the first. */
  lemma {:induction false} SurplusMonotone(m: multiset<string>, m': multiset<string>)
    requires m <= m'
    ensures |m| - |Support(m)| <= |m'| - |Support(m')|
    decreases |m'|
  {
    if m != m' {
      var y := ExtraElement(m, m');
      var m'' := m' - multiset{y};
      SurplusMonotone(m, m'');
      SupportAddOne(m'', y);
    }
  }

  /** A multiset strictly above `m` has an element whose removal stays above `m`. */
  lemma ExtraElement(m: multiset<string>, m': multiset<string>) returns (y: string)
    requires m <= m' && m != m'
    ensures m <= m' - multiset{y}
    ensures m' == (m' - multiset{y}) + multiset{y}
    ensures |m'| == |m' - multiset{y}| + 1
  {
    var d := m' - m;
    assert m' == m + d;
    assert d != multiset{};
    y :| y in d;
  }

  /** One more occurrence adds at most one distinct element. */
  lemma SupportAddOne(m: multiset<string>, y: string)
    ensures |Support(m + multiset{y})| <= |Support(m)| + 1
  {
    if y in m {
      assert Support(m + multiset{y}) == Support(m);
    } else {
      assert Support(m + multiset{y}) == Support(m) + {y};
    }
  }

  /** There are as many distinct keys as distinct elements of the multiset. */
  lemma DedupCard(all: seq<string>)
    ensures |Dedup(all)| == |Support(multiset(all))|
  {
    Vocabulary.DistinctCount(Dedup(all));
    assert Vocabulary.Distinct(Dedup(all)) == Support(multiset(all));
  }

  /**
   * More n-gram occurrences never lower the capped repetition score: for n-grams
   * `a` all found again in `b` (for instance the text with a paragraph pasted
   * twice), the score of `b` is at least that of `a`.
   */
  lemma RepeatScoreMonotone(a: seq<string>, b: seq<string>)
    requires multiset(a) <= multiset(b)
    ensures Min(RepeatTotal(Dedup(a), a), ScoreCap) <= Min(RepeatTotal(Dedup(b), b), ScoreCap)
  {
    DistinctRepeatTotal(a);
    DistinctRepeatTotal(b);
    DedupCard(a);
    DedupCard(b);
    SurplusMonotone(multiset(a), multiset(b));
  }

  /**
   * Pasting a block `p` of at least `n - 1` tokens a second time keeps every
   * n-gram: the windows of `x + p + y` are those of `x + p + p + y` with the `|p|`
   * windows that start inside the copy left out.
   */
  lemma PastedWindows(x: seq<string>, p: seq<string>, y: seq<string>, n: nat)
    requires 1 <= n <= |p| + 1
    requires |x + p + y| >= n
    ensures var c := |x| + |p| - n + 1;
      var g' := Ngrams(x + p + p + y, n);
      && 0 <= c <= c + |p| <= |g'|
      && Ngrams(x + p + y, n) == g'[..c] + g'[c + |p|..]
  {
    var l, l' := x + p + y, x + p + p + y;
    var c := |x| + |p| - n + 1;
    var g, g' := Ngrams(l, n), Ngrams(l', n);
    assert l == (x + p) + y == x + (p + y);
    assert l' == (x + p) + (p + y);
    forall i | 0 <= i < |g| ensures g[i] == (g'[..c] + g'[c + |p|..])[i] {
      if i < c {
        WindowInPrefix(x + p, y, i, n);
        WindowInPrefix(x + p, p + y, i, n);
      } else {
        WindowInSuffix(x, p + y, i, n);
        WindowInSuffix(x + p, p + y, i + |p|, n);
      }
    }
  }

  /** A window that ends within `a` is a window of `a`. */
  lemma WindowInPrefix(a: seq<string>, b: seq<string>, i: nat, n: nat)
    requires i + n <= |a|
    ensures (a + b)[i..i + n] == a[i..i + n]
  {
  }

  /** A window that starts after `a` is a window of `b`. */
  lemma WindowInSuffix(a: seq<string>, b: seq<string>, i: nat, n: nat)
    requires |a| <= i && i + n <= |a| + |b|
    ensures (a + b)[i..i + n] == b[i - |a|..i - |a| + n]
  {
    var w, v := (a + b)[i..i + n], b[i - |a|..i - |a| + n];
    assert forall k :: 0 <= k < n ==> w[k] == v[k];
  }

  /** Hence a block pasted twice keeps every n-gram, counted with multiplicity. */
  lemma PastedNgrams(x: seq<string>, p: seq<string>, y: seq<string>, n: nat)
    requires 1 <= n <= |p| + 1
    ensures multiset(Ngrams(x + p + y, n)) <= multiset(Ngrams(x + p + p + y, n))
  {
    if |x + p + y| >= n {
      PastedWindows(x, p, y, n);
      var c := |x| + |p| - n + 1;
      var g' := Ngrams(x + p + p + y, n);
      assert g' == g'[..c] + g'[c..c + |p|] + g'[c + |p|..];
    }
  }

  /** The same for all the n-grams of sizes 4 up to `n - 1`. */
  lemma {:induction false} PastedNgramsBelow(x: seq<string>, p: seq<string>, y: seq<string>, n: nat)
    requires n <= |p| + 2
    ensures multiset(NgramsBelow(x + p + y, n)) <= multiset(NgramsBelow(x + p + p + y, n))
  {
    if n > 4 {
      PastedNgramsBelow(x, p, y, n - 1);
      PastedNgrams(x, p, y, n - 1);
    }
  }

  /**
   * Pasting a block of six or more tokens a second time never lowers the
   * repetition score: every 4..7-gram occurrence of the original is still there.
   */
  lemma PastedTwiceNeverLower(x: seq<string>, p: seq<string>, y: seq<string>)
    requires |p| >= 6
    ensures var a, b := AllNgrams(x + p + y), AllNgrams(x + p + p + y);
      Min(RepeatTotal(Dedup(a), a), ScoreCap) <= Min(RepeatTotal(Dedup(b), b), ScoreCap)
  {
    PastedNgramsBelow(x, p, y, 8);
    RepeatScoreMonotone(AllNgrams(x + p + y), AllNgrams(x + p + p + y));
  }
}
