/**
 * The suspicious-pattern scanner (`detectSuspiciousPatterns`): a fixed table of
 * weighted rules, each scored by `weight * min(matches, 3)`. Regular-expression
 * matching itself is not modelled: a `Matcher` gives the number of matches of a
 * rule's pattern in a text (`text.match(pattern).length`, 0 for `null`).
 */
module SuspiciousPatterns {
  import opened Text

  /** One rule `{ pattern, weight, name }`; `source` is the pattern's text and `ignoreCase` its `i` flag. */
  datatype PatternRule = PatternRule(source: string, ignoreCase: bool, weight: nat, name: string)

  /** Number of matches of a rule's pattern (all of them: every pattern has the `g` flag). */
  type Matcher = (PatternRule, string) -> nat

  /** One reported rule `{ name, count, contribution }`. */
  datatype DetectedPattern = DetectedPattern(name: string, count: nat, contribution: nat)

  datatype SuspiciousResult = SuspiciousResult(score: nat, patterns: seq<DetectedPattern>)

  /** At most this many matches of one rule are scored. */
  const MatchCap: nat := 3

  /** The engine's rule table, in its order. */
  const Rules: seq<PatternRule> := [
    PatternRule("lorem ipsum", true, 30, "Lorem Ipsum placeholder"),
    PatternRule("\\[insert .+?\\]", true, 25, "Placeholder brackets"),
    PatternRule("\\[citation needed\\]", true, 20, "Missing citations"),
    PatternRule("\\[?\\d+\\](?:\\s*\\[\\d+\\]){3,}", false, 15, "Excessive citations cluster"),
    PatternRule("(.{30,})\\1+", true, 35, "Repeated content blocks"),
    PatternRule("copy\\s*right|\U{00A9}\\s*\\d{4}", true, 25, "Copyright notices"),
    PatternRule("www\\.[a-z]+\\.[a-z]+", true, 10, "URLs in text"),
    PatternRule("sample\\s+text|example\\s+text|dummy\\s+text", true, 30, "Sample text"),
    PatternRule("asdf|qwerty|xxxx|yyyy", true, 35, "Keyboard patterns"),
    PatternRule("click\\s+here|read\\s+more|learn\\s+more", true, 25, "Web navigation"),
    PatternRule("all\\s+rights\\s+reserved", true, 20, "Rights reserved"),
    PatternRule("permission\\s+is\\s+granted", true, 15, "Permission text"),
    PatternRule("reprinted\\s+with\\s+permission", true, 20, "Reprint notice"),
    PatternRule("\\bfigure\\s*\\?\\b|\\btable\\s*\\?\\b", true, 15, "Unresolved references"),
    PatternRule("todo:|fixme:|xxx:|note to self", true, 20, "Draft markers")
  ]

  /** The entry reported for a rule matched `c` times. */
  function Entry(rule: PatternRule, c: nat): DetectedPattern {
    DetectedPattern(rule.name, c, rule.weight * Min(c, MatchCap))
  }

  /** The entries of the rules that matched at least once, in rule order. */
  function Detected(rules: seq<PatternRule>, text: string, m: Matcher): seq<DetectedPattern> {
    if |rules| == 0 then []
    else
      var rule := rules[|rules| - 1];
      var c := m(rule, text);
      Detected(rules[..|rules| - 1], text, m) + (if c >= 1 then [Entry(rule, c)] else [])
  }

  /** The sum of the capped contributions of all rules (a rule without a match adds 0). */
  function ScanScore(rules: seq<PatternRule>, text: string, m: Matcher): nat {
    if |rules| == 0 then 0
    else
      var rule := rules[|rules| - 1];
      ScanScore(rules[..|rules| - 1], text, m) + rule.weight * Min(m(rule, text), MatchCap)
  }

  /** `detectSuspiciousPatterns(text)` as a value; the empty text stands for a missing one. */
  function SuspiciousPatternsOf(text: string, m: Matcher): SuspiciousResult {
    if |text| == 0 then SuspiciousResult(0, [])
    else SuspiciousResult(ScanScore(Rules, text, m), Detected(Rules, text, m))
  }

  /** The `for ... of` loop over a rule table, accumulating `ts` and `dp`. */
  method ScanRules(rules: seq<PatternRule>, text: string, m: Matcher) returns (r: SuspiciousResult)
    ensures r == SuspiciousResult(ScanScore(rules, text, m), Detected(rules, text, m))
  {
    var ts := 0;
    var dp := [];
    var i := 0;
    while i < |rules|
      invariant 0 <= i <= |rules|
      invariant ts == ScanScore(rules[..i], text, m)
      invariant dp == Detected(rules[..i], text, m)
    {
      assert rules[..i + 1][..i] == rules[..i];
      var rule := rules[i];
      var count := m(rule, text);
      if count >= 1 {
        var c := rule.weight * Min(count, 3);
        ts := ts + c;
        dp := dp + [DetectedPattern(rule.name, count, c)];
      }
      i := i + 1;
    }
    assert rules[..i] == rules;
    r := SuspiciousResult(ts, dp);
  }

  /** `detectSuspiciousPatterns`. */
  method DetectSuspiciousPatterns(text: string, m: Matcher) returns (r: SuspiciousResult)
    ensures r == SuspiciousPatternsOf(text, m)
  {
    if |text| == 0 {
      return SuspiciousResult(0, []);
    }
    r := ScanRules(Rules, text, m);
  }

  /** The sum of the reported contributions. */
  function SumContributions(ps: seq<DetectedPattern>): nat {
    if |ps| == 0 then 0 else SumContributions(ps[..|ps| - 1]) + ps[|ps| - 1].contribution
  }

  lemma {:induction false} SumContributionsAppend(a: seq<DetectedPattern>, b: seq<DetectedPattern>)
    ensures SumContributions(a + b) == SumContributions(a) + SumContributions(b)
  {
    if |b| > 0 {
      assert (a + b)[..|a + b| - 1] == a + b[..|b| - 1];
      SumContributionsAppend(a, b[..|b| - 1]);
    } else {
      assert a + b == a;
    }
  }

  /** The scanner's total is exactly the sum of the contributions it reports. */
  lemma {:induction false} ScoreIsSumOfReported(rules: seq<PatternRule>, text: string, m: Matcher)
    ensures ScanScore(rules, text, m) == SumContributions(Detected(rules, text, m))
  {
    if |rules| > 0 {
      var rule := rules[|rules| - 1];
      var c := m(rule, text);
      var init := rules[..|rules| - 1];
      ScoreIsSumOfReported(init, text, m);
      SumContributionsAppend(Detected(init, text, m), if c >= 1 then [Entry(rule, c)] else []);
      if c >= 1 {
        assert SumContributions([Entry(rule, c)]) == rule.weight * Min(c, MatchCap);
      }
    }
  }

  /**
   * Only rules that matched are reported, each with its match count and the
   * contribution `weight * min(count, 3)`; and every rule that matched is reported.
   */
  lemma {:induction false} DetectedExactly(rules: seq<PatternRule>, text: string, m: Matcher)
    ensures forall e :: e in Detected(rules, text, m) ==>
      exists i :: 0 <= i < |rules| && m(rules[i], text) >= 1 && e == Entry(rules[i], m(rules[i], text))
    ensures forall i :: 0 <= i < |rules| && m(rules[i], text) >= 1 ==> Entry(rules[i], m(rules[i], text)) in Detected(rules, text, m)
    ensures forall e :: e in Detected(rules, text, m) ==> e.count >= 1
  {
    if |rules| > 0 {
      var init := rules[..|rules| - 1];
      DetectedExactly(init, text, m);
      forall e | e in Detected(rules, text, m)
        ensures exists i :: 0 <= i < |rules| && m(rules[i], text) >= 1 && e == Entry(rules[i], m(rules[i], text))
      {
        if e in Detected(init, text, m) {
          var i :| 0 <= i < |init| && m(init[i], text) >= 1 && e == Entry(init[i], m(init[i], text));
          assert rules[i] == init[i];
        } else {
          assert e == Entry(rules[|rules| - 1], m(rules[|rules| - 1], text));
        }
      }
      forall i | 0 <= i < |rules| && m(rules[i], text) >= 1
        ensures Entry(rules[i], m(rules[i], text)) in Detected(rules, text, m)
      {
        if i < |init| {
          assert rules[i] == init[i];
        }
      }
    }
  }

  /** The number of rules that matched at least once. */
  function FiredCount(rules: seq<PatternRule>, text: string, m: Matcher): nat {
    if |rules| == 0 then 0
    else FiredCount(rules[..|rules| - 1], text, m) + (if m(rules[|rules| - 1], text) >= 1 then 1 else 0)
  }

  /** One entry per rule that matched. */
  lemma {:induction false} DetectedCount(rules: seq<PatternRule>, text: string, m: Matcher)
    ensures |Detected(rules, text, m)| == FiredCount(rules, text, m)
    ensures FiredCount(rules, text, m) == 0 <==> forall i :: 0 <= i < |rules| ==> m(rules[i], text) == 0
  {
    if |rules| > 0 {
      var init := rules[..|rules| - 1];
      DetectedCount(init, text, m);
      assert forall i :: 0 <= i < |init| ==> init[i] == rules[i];
    }
  }

  /** Every rule adds at most three times its weight. */
  lemma {:induction false} ScanScoreBound(rules: seq<PatternRule>, text: string, m: Matcher)
    ensures ScanScore(rules, text, m) <= MatchCap * WeightSum(rules)
  {
    if |rules| > 0 {
      ScanScoreBound(rules[..|rules| - 1], text, m);
    }
  }

  function WeightSum(rules: seq<PatternRule>): nat {
    if |rules| == 0 then 0 else WeightSum(rules[..|rules| - 1]) + rules[|rules| - 1].weight
  }

  /** The weights of the table add up to 340. */
  lemma RulesWeightSum()
    ensures WeightSum(Rules) == 340
  {
    assert WeightSum(Rules[..0]) == 0;
    assert WeightSum(Rules[..1]) == 30 by { assert Rules[..1][..0] == Rules[..0]; }
    assert WeightSum(Rules[..2]) == 55 by { assert Rules[..2][..1] == Rules[..1]; }
    assert WeightSum(Rules[..3]) == 75 by { assert Rules[..3][..2] == Rules[..2]; }
    assert WeightSum(Rules[..4]) == 90 by { assert Rules[..4][..3] == Rules[..3]; }
    assert WeightSum(Rules[..5]) == 125 by { assert Rules[..5][..4] == Rules[..4]; }
    assert WeightSum(Rules[..6]) == 150 by { assert Rules[..6][..5] == Rules[..5]; }
    assert WeightSum(Rules[..7]) == 160 by { assert Rules[..7][..6] == Rules[..6]; }
    assert WeightSum(Rules[..8]) == 190 by { assert Rules[..8][..7] == Rules[..7]; }
    assert WeightSum(Rules[..9]) == 225 by { assert Rules[..9][..8] == Rules[..8]; }
    assert WeightSum(Rules[..10]) == 250 by { assert Rules[..10][..9] == Rules[..9]; }
    assert WeightSum(Rules[..11]) == 270 by { assert Rules[..11][..10] == Rules[..10]; }
    assert WeightSum(Rules[..12]) == 285 by { assert Rules[..12][..11] == Rules[..11]; }
    assert WeightSum(Rules[..13]) == 305 by { assert Rules[..13][..12] == Rules[..12]; }
    assert WeightSum(Rules[..14]) == 320 by { assert Rules[..14][..13] == Rules[..13]; }
    assert WeightSum(Rules[..15]) == 340 by { assert Rules[..15][..14] == Rules[..14]; }
    assert Rules[..15] == Rules;
  }

  /** The rule names are pairwise different, so reported names identify rules. */
  lemma RuleNamesDistinct()
    ensures forall i, j :: 0 <= i < j < |Rules| ==> Rules[i].name != Rules[j].name
  {
  }

  /**
   * For a non-empty text: the score is the sum of the reported contributions and
   * at most 1020 (three times the weights' total of 340); the report lists one
   * entry per matched rule, each with that rule's count and `weight * min(count, 3)`;
   * and nothing is reported exactly when no rule matched. The empty text scores 0.
   */
  lemma SuspiciousPatternsCorrect(text: string, m: Matcher)
    ensures var r := SuspiciousPatternsOf(text, m);
      && (|text| == 0 ==> r == SuspiciousResult(0, []))
      && (|text| > 0 ==>
            && r.score == SumContributions(r.patterns)
            && r.score <= 1020
            && |r.patterns| == FiredCount(Rules, text, m)
            && (r.patterns == [] <==> forall i :: 0 <= i < |Rules| ==> m(Rules[i], text) == 0)
            && (forall i :: 0 <= i < |Rules| && m(Rules[i], text) >= 1 ==> Entry(Rules[i], m(Rules[i], text)) in r.patterns)
            && (forall e :: e in r.patterns ==>
                  exists i :: 0 <= i < |Rules| && m(Rules[i], text) >= 1 && e == Entry(Rules[i], m(Rules[i], text))))
  {
    if |text| > 0 {
      ScoreIsSumOfReported(Rules, text, m);
      ScanScoreBound(Rules, text, m);
      RulesWeightSum();
      DetectedExactly(Rules, text, m);
      DetectedCount(Rules, text, m);
    }
  }
}
