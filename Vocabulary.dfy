/**
 * The vocabulary metrics calculator (`calculateVocabularyMetrics`): type/token
 * diversity and average token length.
 */
module Vocabulary {
  import opened Tokenizer

  /** `{ diversity, avgWordLength }` (the richness index is not part of this model). */
  datatype VocabularyMetrics = VocabularyMetrics(diversity: real, avgWordLength: real)

  /** `new Set(tokens)`. */
  function Distinct(tokens: seq<string>): set<string> {
    set t | t in tokens
  }

  /** `tokens.reduce((s, t) => s + t.length, 0)`. */
  function SumLengths(tokens: seq<string>): nat {
    if |tokens| == 0 then 0 else SumLengths(tokens[..|tokens| - 1]) + |tokens[|tokens| - 1]|
  }

  /** `calculateVocabularyMetrics(tokens)`; all zero for no tokens. */
  function VocabularyMetricsOf(tokens: seq<string>): VocabularyMetrics {
    if |tokens| == 0 then VocabularyMetrics(0.0, 0.0)
    else
      var n := |tokens| as real;
      VocabularyMetrics((|Distinct(tokens)| as real / n) * 100.0, SumLengths(tokens) as real / n)
  }

  /** There are at most as many distinct tokens as tokens, and as many exactly when none repeats. */
  lemma {:induction false} DistinctCount(tokens: seq<string>)
    ensures |Distinct(tokens)| <= |tokens|
    ensures |tokens| > 0 ==> |Distinct(tokens)| >= 1
    ensures |Distinct(tokens)| == |tokens| <==> forall i, j :: 0 <= i < j < |tokens| ==> tokens[i] != tokens[j]
  {
    if |tokens| > 0 {
      var init := tokens[..|tokens| - 1];
      var x := tokens[|tokens| - 1];
      assert tokens == init + [x];
      DistinctCount(init);
      assert Distinct(tokens) == Distinct(init) + {x};
      if x in init {
        assert Distinct(tokens) == Distinct(init);
        var k :| 0 <= k < |init| && init[k] == x;
        assert tokens[k] == tokens[|tokens| - 1];
      } else {
        assert x !in Distinct(init);
        if |Distinct(init)| == |init| {
          forall i, j | 0 <= i < j < |tokens| ensures tokens[i] != tokens[j] {
            if j < |tokens| - 1 {
              assert tokens[i] == init[i] && tokens[j] == init[j];
            } else {
              assert tokens[i] in init;
            }
          }
        } else {
          var i, j :| 0 <= i < j < |init| && init[i] == init[j];
          assert tokens[i] == tokens[j];
        }
      }
    }
  }

  /** Tokens longer than two characters have total length over twice their number. */
  lemma {:induction false} SumLengthsBound(tokens: seq<string>)
    requires forall i :: 0 <= i < |tokens| ==> |tokens[i]| > 2
    ensures SumLengths(tokens) >= 3 * |tokens|
  {
    if |tokens| > 0 {
      SumLengthsBound(tokens[..|tokens| - 1]);
    }
  }

  /** A quotient `a / b` with `b > 0` is at least `k` exactly when `a` is at least `k * b`. */
  lemma QuotientAtLeast(a: real, b: real, k: real)
    requires b > 0.0
    ensures a / b >= k <==> a >= k * b
  {
    var q := a / b;
    assert q * b == a;
    assert (q - k) * b == a - k * b;
    if q >= k {
      assert (q - k) * b >= 0.0;
    } else {
      assert (k - q) * b > 0.0;
    }
  }

  /** A ratio of two naturals `0 < d <= n`, as a percentage. */
  lemma Percentage(d: nat, n: nat)
    requires 0 < d <= n
    ensures 0.0 < (d as real / n as real) * 100.0 <= 100.0
    ensures (d as real / n as real) * 100.0 == 100.0 <==> d == n
  {
    var q := d as real / n as real;
    QuotientAtLeast(d as real, n as real, 1.0);
    QuotientAtLeast(n as real, d as real, 1.0);
    assert q * n as real == d as real;
    assert q > 0.0 by {
      assert q * n as real > 0.0;
    }
  }

  /**
   * For the tokens of any text: diversity lies in (0, 100], and is 100 exactly
   * when no token repeats; the average token length is at least 3. For no tokens
   * everything is 0.
   */
  lemma VocabularyMetricsRange(tokens: seq<string>)
    requires forall i :: 0 <= i < |tokens| ==> IsToken(tokens[i])
    ensures var m := VocabularyMetricsOf(tokens);
      && (|tokens| == 0 ==> m == VocabularyMetrics(0.0, 0.0))
      && (|tokens| > 0 ==> 0.0 < m.diversity <= 100.0 && m.avgWordLength >= 3.0)
      && (|tokens| > 0 ==> (m.diversity == 100.0 <==> forall i, j :: 0 <= i < j < |tokens| ==> tokens[i] != tokens[j]))
  {
    DistinctCount(tokens);
    SumLengthsBound(tokens);
    if |tokens| > 0 {
      Percentage(|Distinct(tokens)|, |tokens|);
      var n := |tokens| as real;
      var l := SumLengths(tokens) as real;
      QuotientAtLeast(l, n, 3.0);
    }
  }
}
