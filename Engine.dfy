/**
 * The originality scorer's entry point (`PlagiarismDetectionEngine.analyze`):
 * joins title, abstract and document body, runs every sub-analysis on the
 * combined text and folds their results into the plagiarism and similarity
 * scores, a risk level, a content-quality score, a list of issues and a
 * recommendation.
 */
module Engine {
  import opened Text
  import opened Tokenizer
  import ReferencePhrases
  import Vocabulary
  import RepeatedPhrases
  import SentencePatterns
  import SuspiciousPatterns
  import InternalSimilarity
  import Readability

  datatype Risk = Low | Medium | High

  /** The entries of the issue list, in the order they are pushed. */
  datatype Issue =
    | SuspiciousPatternsFound(patterns: nat)
    | RepeatedPhrasesFound(phrases: nat)
    | LowVocabularyDiversity
    | InconsistentWritingStyle
    | LimitedContentLength

  /** What the recommendation text says, without its wording. */
  datatype Recommendation =
    | ProvideMoreContent
    | ReadyForReview
    | NeedsAttention(areas: seq<Issue>)
    | SignificantConcerns(concerns: seq<Issue>)

  /** The results of the sub-analyses for one combined text. */
  datatype Components = Components(
    tokenCount: nat,
    hasBody: bool,
    ds: ReferencePhrases.DatabaseResult,
    vm: Vocabulary.VocabularyMetrics,
    rp: RepeatedPhrases.RepeatResult,
    sp: SentencePatterns.SentenceResult,
    sus: SuspiciousPatterns.SuspiciousResult,
    sim: InternalSimilarity.SimilarityResult,
    rm: Readability.ReadingMetrics,
    wc: Readability.ConsistencyResult)

  /** The returned report: scores, risk, quality, issues, recommendation, and the metrics and details kept. */
  datatype Analysis = Analysis(
    plagiarism: int,
    similarity: int,
    risk: Risk,
    quality: int,
    issues: seq<Issue>,
    recommendation: Recommendation,
    wordCount: nat,
    databaseMatches: nat,
    sentenceCount: nat,
    avgSentenceLength: real,
    readingGrade: real,
    fleschScore: real,
    writingConsistency: nat,
    suspiciousPatterns: seq<SuspiciousPatterns.DetectedPattern>,
    repeatedPhrases: seq<RepeatedPhrases.RepeatedPhrase>,
    topDatabaseMatches: seq<ReferencePhrases.PhraseMatch>)

  /** The early return for too little text. */
  const Insufficient: Analysis :=
    Analysis(0, 0, Low, 0, [], ProvideMoreContent, 0, 0, 0, 0.0, 0.0, 0.0, 0, [], [], [])

  const MinTextLength: nat := 50

  /**
   * `` `${title || ""} ${abstract || ""} ${pdfText || ""}`.trim() ``; empty strings stand for
   * missing parts (the abstract is called `summary` here, `abstract` being a Dafny keyword).
   */
  function CombinedText(title: string, summary: string, body: string): string {
    Trim(title + " " + summary + " " + body)
  }

  /** Every sub-analysis, run on the combined text (consistency on the body when there is one). */
  function ComponentsOf(ct: string, body: string, m: SuspiciousPatterns.Matcher): Components {
    var tokens := Tokenize(ct);
    Components(
      |tokens|, |body| > 0,
      ReferencePhrases.DatabaseSimilarity(ct),
      Vocabulary.VocabularyMetricsOf(tokens),
      RepeatedPhrases.RepeatedPhrasesOf(ct),
      SentencePatterns.SentencePatternsOf(ct),
      SuspiciousPatterns.SuspiciousPatternsOf(ct, m),
      InternalSimilarity.InternalSimilarityOf(ct),
      Readability.ReadingMetricsOf(ct),
      Readability.WritingConsistencyOf(if |body| > 0 then body else ct))
  }

  /**
   * `bss`: 0 without phrase matches, else `min((score / (n / 100)) * 3, 35)`;
   * with no tokens the division gives `Infinity`, hence 35.
   */
  function BaseSimilarity(ds: ReferencePhrases.DatabaseResult, n: nat): real {
    if |ds.matches| == 0 then 0.0
    else if n == 0 then 35.0
    else MinReal((ds.score / (n as real / 100.0)) * 3.0, 35.0)
  }

  /** `bs = 5 + min(n / 500, 1) * 10`. */
  function LengthBase(n: nat): real {
    5.0 + MinReal(n as real / 500.0, 1.0) * 10.0
  }

  /** `vp`, from the vocabulary diversity. */
  function VocabularyPenalty(diversity: real): nat {
    if diversity < 30.0 then 15 else if diversity < 40.0 then 8 else if diversity < 50.0 then 3 else 0
  }

  /** The extra for a short document body. */
  function ShortBodyPenalty(hasBody: bool, n: nat): nat {
    if hasBody && n < 300 then 15 else if hasBody && n < 800 then 8 else 0
  }

  /** `ps` before rounding: the sum of every component score. */
  function RawPlagiarism(c: Components): real {
    LengthBase(c.tokenCount) + BaseSimilarity(c.ds, c.tokenCount) + VocabularyPenalty(c.vm.diversity) as real
    + c.rp.score as real + c.sp.score as real + c.sus.score as real + c.sim.score as real + c.wc.score as real
    + ShortBodyPenalty(c.hasBody, c.tokenCount) as real
  }

  /** `ss` before rounding. */
  function RawSimilarity(c: Components): real {
    BaseSimilarity(c.ds, c.tokenCount) + LengthBase(c.tokenCount) + c.sim.avgSimilarity * 0.3
    + (100 - c.wc.consistency) as real * 0.2
  }

  /** `Math.min(Math.max(x, lo), hi)` on integers. */
  function ClampInt(x: int, lo: int, hi: int): (r: int)
    requires lo <= hi
    ensures lo <= r <= hi
    ensures lo <= x <= hi ==> r == x
  {
    if x < lo then lo else if x > hi then hi else x
  }

  /** The rounded, clamped score. */
  function Percent(x: real): int {
    ClampInt(Round(x), 0, 100)
  }

  /** The risk level from the plagiarism score and the number of rules that fired. */
  function RiskOf(ps: int, fired: nat): Risk {
    if ps >= 50 || fired >= 3 then High else if ps >= 25 || fired >= 1 then Medium else Low
  }

  /** `qs`: 100, less the penalties for short content, low diversity and inconsistent style. */
  function Quality(n: nat, diversity: real, consistency: nat): int {
    var q := 100
      - (if n < 300 then 40 else if n < 800 then 20 else if n < 1500 then 10 else 0)
      - (if diversity < 40.0 then 15 else 0)
      - (if consistency < 80 then 10 else 0);
    if q < 0 then 0 else q
  }

  /** `[x]` when `cond` holds, else nothing: one conditional `issues.push(x)`. */
  function PushIf(cond: bool, x: Issue): seq<Issue> {
    if cond then [x] else []
  }

  /** The issues, in the order `analyze` pushes them. */
  function IssuesOf(c: Components): seq<Issue> {
    PushIf(|c.sus.patterns| > 0, SuspiciousPatternsFound(|c.sus.patterns|))
    + PushIf(|c.rp.phrases| > 0, RepeatedPhrasesFound(|c.rp.phrases|))
    + PushIf(c.vm.diversity < 40.0, LowVocabularyDiversity)
    + PushIf(c.wc.consistency < 80, InconsistentWritingStyle)
    + PushIf(c.tokenCount < 500, LimitedContentLength)
  }

  function RecommendationFor(risk: Risk, issues: seq<Issue>): Recommendation {
    match risk
    case Low => ReadyForReview
    case Medium => NeedsAttention(Take(issues, 2))
    case High => SignificantConcerns(issues)
  }

  /** The report for the combined text's sub-analyses. */
  function Combine(c: Components): Analysis {
    var ps := Percent(RawPlagiarism(c));
    var risk := RiskOf(ps, |c.sus.patterns|);
    var issues := IssuesOf(c);
    Analysis(
      ps, Percent(RawSimilarity(c)), risk, Quality(c.tokenCount, c.vm.diversity, c.wc.consistency),
      issues, RecommendationFor(risk, issues),
      c.tokenCount, |c.ds.matches|, c.sp.sentenceCount, c.sp.avgLength, c.rm.gradeLevel, c.rm.fleschScore,
      c.wc.consistency, c.sus.patterns, c.rp.phrases, Take(c.ds.matches, 10))
  }

  /** `analyze(title, abstract, pdfText)` as a value. */
  function AnalysisOf(title: string, summary: string, body: string, m: SuspiciousPatterns.Matcher): Analysis {
    var ct := CombinedText(title, summary, body);
    if |ct| < MinTextLength then Insufficient else Combine(ComponentsOf(ct, body, m))
  }

  /** `ps`: the component scores added up, the short-body extra, then rounded and clamped. */
  method PlagiarismStep(c: Components) returns (plag: int)
    ensures plag == Percent(RawPlagiarism(c))
  {
    var n := c.tokenCount;
    var bss := BaseSimilarity(c.ds, n);
    var bs := LengthBase(n);
    var vp := VocabularyPenalty(c.vm.diversity);
    var ps: real := bs + bss + vp as real + c.rp.score as real + c.sp.score as real + c.sus.score as real
      + c.sim.score as real + c.wc.score as real;
    if c.hasBody && n < 300 {
      ps := ps + 15.0;
    } else if c.hasBody && n < 800 {
      ps := ps + 8.0;
    }
    plag := ClampInt(Round(ps), 0, 100);
  }

  /** `qs`: the content-quality deductions in turn. */
  method QualityStep(n: nat, diversity: real, consistency: nat) returns (qs: int)
    ensures qs == Quality(n, diversity, consistency)
  {
    qs := 100;
    if n < 300 {
      qs := qs - 40;
    } else if n < 800 {
      qs := qs - 20;
    } else if n < 1500 {
      qs := qs - 10;
    }
    if diversity < 40.0 {
      qs := qs - 15;
    }
    if consistency < 80 {
      qs := qs - 10;
    }
    qs := if qs < 0 then 0 else qs;
  }

  /** The `issues.push` sequence. */
  method IssuesStep(c: Components) returns (issues: seq<Issue>)
    ensures issues == IssuesOf(c)
  {
    issues := [];
    if |c.sus.patterns| > 0 {
      issues := issues + [SuspiciousPatternsFound(|c.sus.patterns|)];
    }
    ghost var pushed := PushIf(|c.sus.patterns| > 0, SuspiciousPatternsFound(|c.sus.patterns|));
    assert issues == pushed;
    if |c.rp.phrases| > 0 {
      issues := issues + [RepeatedPhrasesFound(|c.rp.phrases|)];
    }
    pushed := pushed + PushIf(|c.rp.phrases| > 0, RepeatedPhrasesFound(|c.rp.phrases|));
    assert issues == pushed;
    if c.vm.diversity < 40.0 {
      issues := issues + [LowVocabularyDiversity];
    }
    pushed := pushed + PushIf(c.vm.diversity < 40.0, LowVocabularyDiversity);
    assert issues == pushed;
    if c.wc.consistency < 80 {
      issues := issues + [InconsistentWritingStyle];
    }
    pushed := pushed + PushIf(c.wc.consistency < 80, InconsistentWritingStyle);
    assert issues == pushed;
    if c.tokenCount < 500 {
      issues := issues + [LimitedContentLength];
    }
    pushed := pushed + PushIf(c.tokenCount < 500, LimitedContentLength);
    assert issues == pushed;
  }

  /** The steps of `analyze` after the sub-analyses: `ps`, `ss`, `rl`, `qs` and `issues` built in turn. */
  method CombineSteps(c: Components) returns (r: Analysis)
    ensures r == Combine(c)
  {
    var n := c.tokenCount;
    var plag := PlagiarismStep(c);
    var ss := BaseSimilarity(c.ds, n) + LengthBase(n) + c.sim.avgSimilarity * 0.3 + (100 - c.wc.consistency) as real * 0.2;
    var sim := ClampInt(Round(ss), 0, 100);
    var fired := |c.sus.patterns|;
    var rl := if plag >= 50 || fired >= 3 then High else if plag >= 25 || fired >= 1 then Medium else Low;
    var qs := QualityStep(n, c.vm.diversity, c.wc.consistency);
    var issues := IssuesStep(c);
    var rec := match rl
      case Low => ReadyForReview
      case Medium => NeedsAttention(Take(issues, 2))
      case High => SignificantConcerns(issues);
    r := Analysis(plag, sim, rl, qs, issues, rec, n, |c.ds.matches|, c.sp.sentenceCount, c.sp.avgLength,
                  c.rm.gradeLevel, c.rm.fleschScore, c.wc.consistency, c.sus.patterns, c.rp.phrases,
                  Take(c.ds.matches, 10));
  }

  /** `analyze`. */
  method Analyze(title: string, summary: string, body: string, m: SuspiciousPatterns.Matcher) returns (r: Analysis)
    ensures r == AnalysisOf(title, summary, body, m)
  {
    var ct := Trim(title + " " + summary + " " + body);
    if |ct| < 50 {
      return Insufficient;
    }
    var tokens := Tokenize(ct);
    var ds := ReferencePhrases.CalculateDatabaseSimilarity(ct);
    var vm := Vocabulary.VocabularyMetricsOf(tokens);
    var rp := RepeatedPhrases.DetectRepeatedPhrases(ct);
    var sp := SentencePatterns.AnalyzeSentencePatterns(ct);
    var sus := SuspiciousPatterns.DetectSuspiciousPatterns(ct, m);
    var is_ := InternalSimilarity.CalculateInternalSimilarity(ct);
    var rm := Readability.CalculateReadingMetrics(ct);
    var wc := Readability.WritingConsistencyOf(if |body| > 0 then body else ct);
    r := CombineSteps(Components(|tokens|, |body| > 0, ds, vm, rp, sp, sus, is_, rm, wc));
  }

  /** Too little text: both scores 0, risk LOW, no issues, and the request for more content. */
  lemma InsufficientText(title: string, summary: string, body: string, m: SuspiciousPatterns.Matcher)
    requires |CombinedText(title, summary, body)| < MinTextLength
    ensures var a := AnalysisOf(title, summary, body, m);
      a.plagiarism == 0 && a.similarity == 0 && a.risk == Low && a.issues == [] && a.recommendation == ProvideMoreContent
  {
  }

  /**
   * Both scores are whole numbers in [0, 100], and the quality score lies in
   * [35, 100], reaching 100 exactly for at least 1500 tokens, diversity of at
   * least 40 and consistency of at least 80.
   */
  lemma ScoreBounds(c: Components)
    ensures var a := Combine(c);
      && 0 <= a.plagiarism <= 100 && 0 <= a.similarity <= 100
      && 35 <= a.quality <= 100
      && (a.quality == 100 <==> c.tokenCount >= 1500 && c.vm.diversity >= 40.0 && c.wc.consistency >= 80)
  {
  }

  /**
   * HIGH exactly when the plagiarism score is at least 50 or three or more rules
   * fired; MEDIUM exactly when not HIGH and the score is at least 25 or some rule
   * fired; LOW otherwise.
   */
  lemma RiskLevels(c: Components)
    ensures var a := Combine(c);
      && (a.risk == High <==> a.plagiarism >= 50 || |a.suspiciousPatterns| >= 3)
      && (a.risk == Medium <==> !(a.plagiarism >= 50 || |a.suspiciousPatterns| >= 3) && (a.plagiarism >= 25 || |a.suspiciousPatterns| >= 1))
      && (a.risk == Low <==> a.plagiarism < 25 && |a.suspiciousPatterns| == 0)
  {
  }

  /** Enough text is analysed: the report is the combination of the sub-analyses of the combined text. */
  lemma SufficientTextCombined(title: string, summary: string, body: string, m: SuspiciousPatterns.Matcher)
    requires |CombinedText(title, summary, body)| >= MinTextLength
    ensures AnalysisOf(title, summary, body, m) == Combine(ComponentsOf(CombinedText(title, summary, body), body, m))
  {
  }

  /** Any reported suspicious pattern rules out LOW, and heads the issues; three make the risk HIGH. */
  lemma ReportedPatternsRaiseRisk(c: Components)
    requires |c.sus.patterns| > 0
    ensures var a := Combine(c);
      && a.risk != Low
      && |a.issues| > 0 && a.issues[0] == SuspiciousPatternsFound(|c.sus.patterns|)
      && (|c.sus.patterns| >= 3 ==> a.risk == High)
  {
  }

  /**
   * For enough text, a rule of the suspicious-pattern table that matches rules
   * out LOW risk, and the issues start with the suspicious-pattern entry; three
   * matching rules make the risk HIGH.
   */
  lemma FiredRuleRaisesRisk(title: string, summary: string, body: string, m: SuspiciousPatterns.Matcher, i: nat)
    requires |CombinedText(title, summary, body)| >= MinTextLength
    requires i < |SuspiciousPatterns.Rules|
    requires m(SuspiciousPatterns.Rules[i], CombinedText(title, summary, body)) >= 1
    ensures var a := AnalysisOf(title, summary, body, m);
      && a.risk != Low
      && |a.issues| > 0 && a.issues[0] == SuspiciousPatternsFound(|a.suspiciousPatterns|)
      && (SuspiciousPatterns.FiredCount(SuspiciousPatterns.Rules, CombinedText(title, summary, body), m) >= 3 ==> a.risk == High)
  {
    var ct := CombinedText(title, summary, body);
    var c := ComponentsOf(ct, body, m);
    SufficientTextCombined(title, summary, body, m);
    SuspiciousPatterns.SuspiciousPatternsCorrect(ct, m);
    assert c.sus == SuspiciousPatterns.SuspiciousPatternsOf(ct, m);
    ReportedPatternsRaiseRisk(c);
  }

  /** Rounding and clamping keep the order of the raw scores. */
  lemma PercentMonotone(x: real, y: real)
    requires x <= y
    ensures Percent(x) <= Percent(y)
  {
    assert (x + 0.5).Floor <= (y + 0.5).Floor;
  }

  /** A raw score of at least 5 stays at least 5 once rounded and clamped. */
  lemma PercentAtLeastFive(x: real)
    requires x >= 5.0
    ensures Percent(x) >= 5
  {
  }

  /** More suspicious-pattern score never lowers the plagiarism score. */
  lemma MoreSuspiciousNeverLower(c: Components, more: SuspiciousPatterns.SuspiciousResult)
    requires more.score >= c.sus.score
    ensures Combine(c.(sus := more)).plagiarism >= Combine(c).plagiarism
  {
    PercentMonotone(RawPlagiarism(c), RawPlagiarism(c.(sus := more)));
  }

  lemma ScaledRatioNonNegative(score: real, n: nat)
    requires score >= 0.0 && n > 0
    ensures (score / (n as real / 100.0)) * 3.0 >= 0.0
  {
    var d := n as real / 100.0;
    assert d > 0.0;
    assert (score / d) * d == score;
  }

  /** With non-negative phrase score and similarity, and consistency at most 100, both scores are at least 5. */
  lemma ScoreFloor(c: Components)
    requires c.ds.score >= 0.0 && c.sim.avgSimilarity >= 0.0 && c.wc.consistency <= 100
    ensures 5 <= Combine(c).plagiarism && 5 <= Combine(c).similarity
  {
    if |c.ds.matches| > 0 && c.tokenCount > 0 {
      ScaledRatioNonNegative(c.ds.score, c.tokenCount);
    }
    assert BaseSimilarity(c.ds, c.tokenCount) >= 0.0;
    assert LengthBase(c.tokenCount) >= 5.0;
    PercentAtLeastFive(RawPlagiarism(c));
    PercentAtLeastFive(RawSimilarity(c));
  }

  /** The sub-analyses of enough text meet the premises of `ScoreFloor`. */
  lemma ComponentsInRange(ct: string, body: string, m: SuspiciousPatterns.Matcher)
    requires |ct| >= MinTextLength
    ensures var c := ComponentsOf(ct, body, m);
      c.ds.score >= 0.0 && c.sim.avgSimilarity >= 0.0 && c.wc.consistency <= 100
  {
    ReferencePhrases.DatabaseSimilarityCorrect(ct, "");
    InternalSimilarity.InternalSimilarityRange(ct);
    Readability.ConsistencyValues(if |body| > 0 then body else ct);
  }

  /** For enough text, both scores are at least 5: every term is non-negative and the length base is at least 5. */
  lemma SufficientTextFloor(title: string, summary: string, body: string, m: SuspiciousPatterns.Matcher)
    requires |CombinedText(title, summary, body)| >= MinTextLength
    ensures var a := AnalysisOf(title, summary, body, m);
      5 <= a.plagiarism <= 100 && 5 <= a.similarity <= 100
  {
    var ct := CombinedText(title, summary, body);
    var c := ComponentsOf(ct, body, m);
    SufficientTextCombined(title, summary, body, m);
    ComponentsInRange(ct, body, m);
    ScoreFloor(c);
    ScoreBounds(c);
  }

  /** Each issue is listed exactly when its condition holds, each at most once, so there are at most five. */
  lemma IssuesListed(c: Components)
    ensures var issues := IssuesOf(c);
      && (SuspiciousPatternsFound(|c.sus.patterns|) in issues <==> |c.sus.patterns| > 0)
      && (RepeatedPhrasesFound(|c.rp.phrases|) in issues <==> |c.rp.phrases| > 0)
      && (LowVocabularyDiversity in issues <==> c.vm.diversity < 40.0)
      && (InconsistentWritingStyle in issues <==> c.wc.consistency < 80)
      && (LimitedContentLength in issues <==> c.tokenCount < 500)
      && |issues| <= 5
  {
    var issues := IssuesOf(c);
    var a1 := PushIf(|c.sus.patterns| > 0, SuspiciousPatternsFound(|c.sus.patterns|));
    var a2 := PushIf(|c.rp.phrases| > 0, RepeatedPhrasesFound(|c.rp.phrases|));
    var a3 := PushIf(c.vm.diversity < 40.0, LowVocabularyDiversity);
    var a4 := PushIf(c.wc.consistency < 80, InconsistentWritingStyle);
    var a5 := PushIf(c.tokenCount < 500, LimitedContentLength);
    assert issues == a1 + a2 + a3 + a4 + a5;
    forall x | x in issues ensures x in a1 || x in a2 || x in a3 || x in a4 || x in a5 {
    }
  }

  /** The recommendation is the review-ready message for LOW, names the first two issues for MEDIUM and all of them for HIGH. */
  lemma RecommendationByRisk(risk: Risk, issues: seq<Issue>)
    ensures var rec := RecommendationFor(risk, issues);
      && (risk == Low ==> rec == ReadyForReview)
      && (risk == Medium ==> rec == NeedsAttention(issues[..Min(|issues|, 2)]))
      && (risk == High ==> rec == SignificantConcerns(issues))
  {
  }

  /**
   * Each issue is listed exactly when its condition holds, in a fixed order,
   * each at most once; the recommendation is the review-ready message for LOW,
   * names the first two issues for MEDIUM and all of them for HIGH.
   */
  lemma IssuesAndRecommendation(c: Components)
    ensures var a := Combine(c);
      && (SuspiciousPatternsFound(|c.sus.patterns|) in a.issues <==> |c.sus.patterns| > 0)
      && (RepeatedPhrasesFound(|c.rp.phrases|) in a.issues <==> |c.rp.phrases| > 0)
      && (LowVocabularyDiversity in a.issues <==> c.vm.diversity < 40.0)
      && (InconsistentWritingStyle in a.issues <==> c.wc.consistency < 80)
      && (LimitedContentLength in a.issues <==> c.tokenCount < 500)
      && |a.issues| <= 5
      && (a.risk == Low ==> a.recommendation == ReadyForReview)
      && (a.risk == Medium ==> a.recommendation == NeedsAttention(a.issues[..Min(|a.issues|, 2)]))
      && (a.risk == High ==> a.recommendation == SignificantConcerns(a.issues))
  {
    var a := Combine(c);
    assert a.issues == IssuesOf(c) && a.recommendation == RecommendationFor(a.risk, a.issues);
    IssuesListed(c);
    RecommendationByRisk(a.risk, a.issues);
  }
}
