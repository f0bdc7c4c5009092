/**
 * The reference phrase matcher (`calculateDatabaseSimilarity`): counts, in the
 * lower-cased text, the matches of each phrase of two static tables, where every
 * space of a phrase stands for one or more whitespace characters (`\s+`).
 */
module ReferencePhrases {
  import opened Text
  import opened Wrappers

  /** Common academic phrasing; each hit weighs 2. */
  const AcademicPhrases: seq<string> := [
    "in this paper we present", "the results show that", "in conclusion we have",
    "this study aims to", "the proposed method", "experimental results demonstrate",
    "literature review shows", "previous studies have shown", "according to recent research",
    "the main contribution of", "we propose a novel", "state of the art",
    "to the best of our knowledge", "the experimental setup", "the dataset consists of",
    "we evaluate our approach", "compared to existing methods", "the performance of the",
    "future work includes", "the results indicate that", "based on our findings",
    "the analysis reveals", "we conducted experiments", "the methodology involves",
    "significant improvement over", "the framework consists of", "we implemented the",
    "the algorithm works by", "data was collected from", "participants were recruited",
    "the study was conducted", "results were analyzed using", "statistical analysis showed",
    "the findings suggest that", "implications of this research", "limitations of this study",
    "further investigation is needed", "the hypothesis was tested",
    "correlation was found between", "the model achieves", "accuracy of the proposed",
    "outperforms the baseline", "training and testing", "cross validation was used",
    "the loss function", "optimization algorithm", "convergence was achieved",
    "the architecture consists", "feature extraction", "classification accuracy"
  ]

  /** Filler phrasing; each hit weighs 1.5. */
  const FillerPhrases: seq<string> := [
    "it is important to note", "it should be noted that", "it is worth mentioning",
    "as mentioned above", "as discussed earlier", "in other words", "for instance", "for example",
    "such as", "in addition to", "furthermore", "moreover", "however", "therefore", "consequently",
    "as a result", "due to the fact", "in order to", "with respect to", "in terms of",
    "on the other hand", "in contrast", "similarly", "likewise", "nevertheless", "nonetheless",
    "although", "despite the fact", "regardless of", "in particular", "specifically",
    "generally speaking", "broadly speaking", "to summarize", "in summary", "to conclude",
    "in conclusion", "overall", "finally", "ultimately"
  ]

  datatype PhraseKind = Academic | Filler

  function Weight(kind: PhraseKind): real {
    match kind
    case Academic => 2.0
    case Filler => 1.5
  }

  /** One entry of `matches`: `{ phrase, count, type }`. */
  datatype PhraseMatch = PhraseMatch(phrase: string, count: nat, kind: PhraseKind)

  /** The result `{ score, matches }`. */
  datatype DatabaseResult = DatabaseResult(score: real, matches: seq<PhraseMatch>)

  /**
   * Length of the match of the phrase regex at the very start of `t`, if any.
   * A space of the phrase takes the whole run of whitespace (`\s+` is greedy, and
   * since no other phrase character is whitespace, giving any of it back never
   * lets the rest match); every other character must equal the text's.
   */
  function MatchAt(t: string, p: string): (r: Option<nat>)
    ensures r.Some? ==> |p| <= r.value <= |t|
    decreases |p|
  {
    if |p| == 0 then Some(0)
    else if p[0] == ' ' then
      var w := |t| - |DropLeading(t, IsSpace)|;
      if w == 0 then None
      else
        match MatchAt(t[w..], p[1..])
        case None => None
        case Some(m) => Some(w + m)
    else if |t| > 0 && t[0] == p[0] then
      match MatchAt(t[1..], p[1..])
      case None => None
      case Some(m) => Some(1 + m)
    else None
  }

  /**
   * `t.match(regex).length` for a global regex: the number of non-overlapping
   * matches found scanning left to right, each search resuming where the previous
   * match ended. An empty pattern matches at every position.
   */
  function CountMatches(t: string, p: string): nat
    decreases |t|
  {
    if |p| == 0 then |t| + 1
    else if |t| == 0 then 0
    else
      match MatchAt(t, p)
      case Some(m) => 1 + CountMatches(t[m..], p)
      case None => CountMatches(t[1..], p)
  }

  /** The phrase regex matches somewhere in `t`. */
  ghost predicate Occurs(t: string, p: string) {
    exists i :: 0 <= i < |t| && MatchAt(t[i..], p).Some?
  }

  /** Without a match at its start, a text holds the phrase exactly when its tail does. */
  lemma OccursInTail(t: string, p: string)
    requires |t| > 0 && MatchAt(t, p).None?
    ensures Occurs(t, p) <==> Occurs(t[1..], p)
  {
    assert t[0..] == t;
    if Occurs(t, p) {
      var i :| 0 <= i < |t| && MatchAt(t[i..], p).Some?;
      assert t[1..][i - 1..] == t[i..];
    }
    if Occurs(t[1..], p) {
      var i :| 0 <= i < |t| - 1 && MatchAt(t[1..][i..], p).Some?;
      assert t[1..][i..] == t[i + 1..];
    }
  }

  /** A phrase is counted exactly when it occurs somewhere in the text. */
  lemma {:induction false} CountPositiveIffOccurs(t: string, p: string)
    requires |p| > 0
    ensures CountMatches(t, p) > 0 <==> Occurs(t, p)
    decreases |t|
  {
    if |t| > 0 {
      match MatchAt(t, p)
      case Some(m) =>
        assert t[0..] == t;
      case None =>
        CountPositiveIffOccurs(t[1..], p);
        OccursInTail(t, p);
    }
  }

  /** The matched phrases of one table, in table order, each with its count. */
  function TableMatches(lt: string, phrases: seq<string>, kind: PhraseKind): seq<PhraseMatch> {
    if |phrases| == 0 then []
    else
      var p := phrases[|phrases| - 1];
      var c := CountMatches(lt, p);
      TableMatches(lt, phrases[..|phrases| - 1], kind) + (if c > 0 then [PhraseMatch(p, c, kind)] else [])
  }

  /** The weighted hit count `ms` of a list of matches. */
  function WeightedSum(matches: seq<PhraseMatch>): real {
    if |matches| == 0 then 0.0
    else
      var m := matches[|matches| - 1];
      WeightedSum(matches[..|matches| - 1]) + m.count as real * Weight(m.kind)
  }

  /** `calculateDatabaseSimilarity(text)` as a value. */
  function DatabaseSimilarity(text: string): DatabaseResult {
    if |text| < 50 then DatabaseResult(0.0, [])
    else
      var lt := LowerStr(text);
      var matches := TableMatches(lt, AcademicPhrases, Academic) + TableMatches(lt, FillerPhrases, Filler);
      DatabaseResult(WeightedSum(matches), matches)
  }

  lemma AppendPrefix<T>(s: seq<T>, x: T)
    ensures (s + [x])[..|s|] == s
  {
  }

  /** Sum of weights over a concatenation of match lists. */
  lemma {:induction false} WeightedSumAppend(a: seq<PhraseMatch>, b: seq<PhraseMatch>)
    ensures WeightedSum(a + b) == WeightedSum(a) + WeightedSum(b)
    decreases |b|
  {
    if |b| == 0 {
      assert a + b == a;
    } else {
      var ab := a + b;
      assert ab[..|ab| - 1] == a + b[..|b| - 1];
      assert ab[|ab| - 1] == b[|b| - 1];
      WeightedSumAppend(a, b[..|b| - 1]);
    }
  }

  /** One forEach over a phrase table: the phrases with a match, and the hits they add to `ms`. */
  method ScanTable(lt: string, phrases: seq<string>, kind: PhraseKind) returns (found: seq<PhraseMatch>, score: real)
    ensures found == TableMatches(lt, phrases, kind)
    ensures score == WeightedSum(found)
  {
    found, score := [], 0.0;
    var i := 0;
    while i < |phrases|
      invariant 0 <= i <= |phrases|
      invariant found == TableMatches(lt, phrases[..i], kind)
      invariant score == WeightedSum(found)
    {
      var p := phrases[i];
      var c := CountMatches(lt, p);
      assert phrases[..i + 1][..i] == phrases[..i];
      if c > 0 {
        AppendPrefix(found, PhraseMatch(p, c, kind));
        score := score + c as real * Weight(kind);
        found := found + [PhraseMatch(p, c, kind)];
      }
      i := i + 1;
    }
    assert phrases[..i] == phrases;
  }

  /** `calculateDatabaseSimilarity`: the academic table, then the filler table, into one `ms` and one `matches`. */
  method CalculateDatabaseSimilarity(text: string) returns (r: DatabaseResult)
    ensures r == DatabaseSimilarity(text)
  {
    if |text| < 50 {
      return DatabaseResult(0.0, []);
    }
    var lt := LowerStr(text);
    var academic, academicScore := ScanTable(lt, AcademicPhrases, Academic);
    var filler, fillerScore := ScanTable(lt, FillerPhrases, Filler);
    WeightedSumAppend(academic, filler);
    r := DatabaseResult(academicScore + fillerScore, academic + filler);
  }

  /** Every reported match names a phrase of its kind's table and carries that phrase's positive count. */
  lemma {:induction false} TableMatchesSound(lt: string, phrases: seq<string>, kind: PhraseKind)
    ensures forall m :: m in TableMatches(lt, phrases, kind) ==>
      m.phrase in phrases && m.kind == kind && m.count == CountMatches(lt, m.phrase) && m.count > 0
  {
    if |phrases| > 0 {
      TableMatchesSound(lt, phrases[..|phrases| - 1], kind);
    }
  }

  /** Every phrase of the table with a positive count is reported. */
  lemma {:induction false} TableMatchesComplete(lt: string, phrases: seq<string>, kind: PhraseKind, p: string)
    requires p in phrases && CountMatches(lt, p) > 0
    ensures PhraseMatch(p, CountMatches(lt, p), kind) in TableMatches(lt, phrases, kind)
  {
    var init := phrases[..|phrases| - 1];
    if p != phrases[|phrases| - 1] {
      assert p in init;
      TableMatchesComplete(lt, init, kind, p);
    }
  }

  /** Each match weighs at least 1.5, so the score is positive exactly when something matched. */
  lemma {:induction false} WeightedSumBound(matches: seq<PhraseMatch>)
    requires forall m :: m in matches ==> m.count > 0
    ensures WeightedSum(matches) >= 1.5 * |matches| as real
  {
    if |matches| > 0 {
      WeightedSumBound(matches[..|matches| - 1]);
    }
  }

  /**
   * The reference matcher reports, with its count, exactly the table phrases that
   * occur in the lower-cased text; its score is zero exactly when nothing matched.
   */
  lemma DatabaseSimilarityCorrect(text: string, p: string)
    requires |text| >= 50
    ensures var r := DatabaseSimilarity(text);
      && (forall m :: m in r.matches ==>
            && (m.kind == Academic ==> m.phrase in AcademicPhrases)
            && (m.kind == Filler ==> m.phrase in FillerPhrases)
            && m.count > 0 && m.count == CountMatches(LowerStr(text), m.phrase))
      && (p in AcademicPhrases && CountMatches(LowerStr(text), p) > 0 ==>
            PhraseMatch(p, CountMatches(LowerStr(text), p), Academic) in r.matches)
      && (p in FillerPhrases && CountMatches(LowerStr(text), p) > 0 ==>
            PhraseMatch(p, CountMatches(LowerStr(text), p), Filler) in r.matches)
      && r.score >= 1.5 * |r.matches| as real
      && (r.score == 0.0 <==> r.matches == [])
  {
    var lt := LowerStr(text);
    TableMatchesSound(lt, AcademicPhrases, Academic);
    TableMatchesSound(lt, FillerPhrases, Filler);
    if p in AcademicPhrases && CountMatches(lt, p) > 0 {
      TableMatchesComplete(lt, AcademicPhrases, Academic, p);
    }
    if p in FillerPhrases && CountMatches(lt, p) > 0 {
      TableMatchesComplete(lt, FillerPhrases, Filler, p);
    }
    var r := DatabaseSimilarity(text);
    WeightedSumBound(r.matches);
    if r.matches != [] {
      assert r.score >= 1.5;
    }
  }
}
