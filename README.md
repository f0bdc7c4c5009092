# Research-submission originality scoring, form validation and HOD statistics

This project models three parts of a research-portal web front end in Dafny.

1. **The originality engine.** It is `PlagiarismDetectionEngine`, the heuristic scorer run on a submission before faculty review. It combines the title, the abstract and the text of the uploaded document into one string. From that string it derives the following:
   - a plagiarism score and a similarity score, both whole numbers in [0, 100];
   - a LOW / MEDIUM / HIGH risk level;
   - a content-quality score;
   - a list of issues and a recommendation.

   Each part of the engine is its own module, and all of them work on that combined text:
   - `Tokenizer`: the tokenizer and the n-gram generator;
   - `ReferencePhrases`: the reference-phrase matcher;
   - `Vocabulary`: the vocabulary metrics;
   - `RepeatedPhrases`: the repeated-phrase detector;
   - `SentencePatterns`: the sentence-pattern analyser;
   - `SuspiciousPatterns`: the suspicious-pattern scanner;
   - `InternalSimilarity`: the internal-similarity calculator;
   - `Readability`: the readability calculator and the writing-consistency analyser;
   - `Engine`: the aggregation, `analyze`.
2. **The submission form's validator** (`SubmissionForm`). It holds the table of research types with their fields, `validateStep` and `getMissingFields`.
3. **The head-of-department dashboard statistics** (`HodStats`):
   - `safeStatus`;
   - the project-status distribution;
   - the two pending-approval counts;
   - the monthly submission counts;
   - the faculty workload.

`Text` gives the JavaScript string built-ins the code relies on a precise meaning: `\s`, `\w`, `toLowerCase`, `trim`, the `split` forms and `slice`. `Counting` models the "count into a plain object" idiom, `acc[k] = (acc[k] || 0) + 1`. In that idiom a dictionary's keys come in insertion order.

Where the source works step by step, the model has a method that follows the same loop. Examples are the n-gram loop, the two phrase-table scans, the dictionary-building reductions, the rule scan, the pairwise comparisons and the syllable count. Each such method is proved equal to a specification function. The properties are then proved as lemmas about those functions.

**Behaviour worth noting.**
- Tokens are runs of `\w` characters, so `_` is a token character alongside letters and digits.
- The stopword list has 74 words. The model numbers them (`Tokenizer.Stopword`) in source order.
- In sentence mode, the internal-similarity loop compares sentence `i` with sentence `i + 3` for every even `i`.
- The writing consistency is computed on the document body when there is one, and on the combined text otherwise.
- The status distribution shows both raw "FACULTY_APPROVED" and raw "FACULTY APPROVED" as "FACULTY APPROVED". The HOD pending count takes only the first.

## Model

| member | source | states |
|---|---|---|
| Text.SplitOn | frontend/src/components/SubmitResearch.jsx:119 | `split(/[C]+/)`: always at least one piece; pieces contain no separator and only characters of the input; input without separators gives itself |
| Text.Filter | frontend/src/components/SubmitResearch.jsx:120 | `filter`: every kept element is an input element satisfying the predicate, and every input element satisfying it is kept |
| Text.Round | frontend/src/components/SubmitResearch.jsx:217 | `Math.round`: the result lies within half a unit of the input, halves rounded up |
| Text.RoundTo1 | frontend/src/components/SubmitResearch.jsx:176 | `parseFloat(x.toFixed(1))` for `x >= 0`: non-negative and within 0.05 of `x` |
| Text.RoundTo1AtMost | frontend/src/components/SubmitResearch.jsx:191 | rounding to one decimal never exceeds a whole-number bound that `x` respects |
| Text.RoundTo1AtLeast | frontend/src/components/SubmitResearch.jsx:159 | rounding to one decimal never drops a value below a whole-number bound it respects |
| Counting.Dedup | frontend/src/components/SubmitResearch.jsx:144 | the keys of a counting object in insertion order: every item appears, only items appear, no key repeats |
| Counting.Increment | frontend/src/components/SubmitResearch.jsx:143 | one `acc[x] = (acc[x] \|\| 0) + 1` keeps the object an exact tally, now including `x` |
| Counting.CountAll | frontend/src/components/SubmitResearch.jsx:143 | a `forEach` of increments leaves an exact tally of all items seen, in first-seen key order |
| Counting.TallyLookup | frontend/src/components/SubmitResearch.jsx:144 | every key listed by `Object.entries` is present with its number of occurrences |
| Counting.DedupCountsSum | frontend/src/Data/hodStatsDummy.js:21-28 | the counts of the distinct items add up to the number of items |
| Tokenizer.Normalize | frontend/src/components/SubmitResearch.jsx:119 | lower-casing plus punctuation-to-space keeps the length and leaves only spaces and lower-case word characters |
| Tokenizer.Tokenize | frontend/src/components/SubmitResearch.jsx:117-121 | every token is longer than two characters, is not a stopword and is a run of lower-case word characters |
| Tokenizer.TokenizeIgnoresCase | frontend/src/components/SubmitResearch.jsx:119 | tokenizing a lower-cased text gives the same tokens as the text itself |
| Tokenizer.NoWordNoToken | frontend/src/components/SubmitResearch.jsx:117-121 | text without a word character yields no token |
| Tokenizer.GenerateNgrams | frontend/src/components/SubmitResearch.jsx:122-127 | no n-grams when there are fewer than `n` tokens; else `len - n + 1` of them, the i-th joining tokens `i .. i+n-1` with spaces |
| ReferencePhrases.MatchAt | frontend/src/components/SubmitResearch.jsx:131 | a whitespace-tolerant phrase match at the start of the text consumes at least the phrase's length and at most the text |
| ReferencePhrases.CountPositiveIffOccurs | frontend/src/components/SubmitResearch.jsx:131-132 | a phrase's match count is positive exactly when the phrase matches somewhere in the text |
| ReferencePhrases.ScanTable | frontend/src/components/SubmitResearch.jsx:131-132 | the `forEach` over one phrase table yields the matched phrases and their weighted hits, as the table-scan function defines |
| ReferencePhrases.CalculateDatabaseSimilarity | frontend/src/components/SubmitResearch.jsx:128-134 | the method's two scans compute exactly the reference-matcher result |
| ReferencePhrases.TableMatchesSound | frontend/src/components/SubmitResearch.jsx:131-132 | every reported match names a phrase of the table and has that phrase's positive count |
| ReferencePhrases.TableMatchesComplete | frontend/src/components/SubmitResearch.jsx:131-132 | every table phrase with a positive count is reported |
| ReferencePhrases.WeightedSumBound | frontend/src/components/SubmitResearch.jsx:131-133 | each match weighs at least 1.5, so the score is at least 1.5 per match and positive exactly when there is a match |
| ReferencePhrases.DatabaseSimilarityCorrect | frontend/src/components/SubmitResearch.jsx:128-134 | for text of 50+ characters: the matches are exactly the table phrases occurring in the lower-cased text; score 0 exactly when nothing matched |
| Vocabulary.DistinctCount | frontend/src/components/SubmitResearch.jsx:137-138 | at most as many distinct tokens as tokens, equally many exactly when none repeats |
| Vocabulary.VocabularyMetricsOf | frontend/src/components/SubmitResearch.jsx:135-139 | proved by `VocabularyMetricsRange`: zero metrics for no tokens, else diversity in (0, 100], 100 exactly when no token repeats, average token length at least 3 |
| Vocabulary.SumLengthsBound | frontend/src/components/SubmitResearch.jsx:138 | tokens longer than two characters have total length at least three per token |
| Vocabulary.VocabularyMetricsRange | frontend/src/components/SubmitResearch.jsx:135-139 | zero metrics for no tokens; else diversity in (0, 100], equal to 100 exactly when no token repeats, and an average length of at least 3 |
| RepeatedPhrases.CountNgrams | frontend/src/components/SubmitResearch.jsx:143 | the loop over n = 4..7 leaves an exact tally of all 4..7-grams in first-seen order |
| RepeatedPhrases.ScoreEntries | frontend/src/components/SubmitResearch.jsx:144 | the pass over the entries gives the uncapped repetition total and the first five repeated entries |
| RepeatedPhrases.DetectRepeatedPhrases | frontend/src/components/SubmitResearch.jsx:140-146 | the method computes exactly the repeated-phrase result for the text |
| RepeatedPhrases.RepeatTotalSurplus | frontend/src/components/SubmitResearch.jsx:144 | over distinct occurring keys, the uncapped total is three times the occurrences beyond the first |
| RepeatedPhrases.ReportedSound | frontend/src/components/SubmitResearch.jsx:144 | reported phrases are keys seen at least twice with their true count and contribution `(c-1)*3`; none is reported exactly when no key repeats |
| RepeatedPhrases.DistinctRepeatTotal | frontend/src/components/SubmitResearch.jsx:144 | over the distinct n-grams, the uncapped total is three times the number of n-gram occurrences beyond the first of each |
| RepeatedPhrases.NothingReportedIffZero | frontend/src/components/SubmitResearch.jsx:144-145 | no phrase is reported exactly when the uncapped total is 0 |
| RepeatedPhrases.ReportedInOrder | frontend/src/components/SubmitResearch.jsx:144 | the repeated entries of `Object.entries(pc)` are exactly the keys counted twice or more, in key order |
| RepeatedPhrases.ReportedDistinct | frontend/src/components/SubmitResearch.jsx:144 | over distinct keys, no phrase is reported twice |
| RepeatedPhrases.FirstFiveRepeats | frontend/src/components/SubmitResearch.jsx:144 | the `rp.length < 5` guard keeps the first five repeated keys in key order: min(#repeated, 5) entries, each once |
| RepeatedPhrases.RepeatedKeysExact | frontend/src/components/SubmitResearch.jsx:143-144 | the repeated keys over the distinct n-grams are exactly the n-grams seen twice or more |
| RepeatedPhrases.SurplusMonotone | frontend/src/components/SubmitResearch.jsx:143-144 | adding n-gram occurrences never lowers the number of occurrences beyond the first |
| RepeatedPhrases.RepeatScoreMonotone | frontend/src/components/SubmitResearch.jsx:143-145 | when every n-gram occurrence of one text is found again in another, the other's capped repetition score is at least as high |
| RepeatedPhrases.PastedWindows | frontend/src/components/SubmitResearch.jsx:122-127 | pasting a block of at least `n - 1` tokens twice: the n-grams of the original are those of the pasted text minus the windows starting inside the copy |
| RepeatedPhrases.PastedNgrams | frontend/src/components/SubmitResearch.jsx:122-127 | pasting such a block twice keeps every n-gram, counted with multiplicity |
| RepeatedPhrases.PastedTwiceNeverLower | frontend/src/components/SubmitResearch.jsx:140-146 | pasting a block of six or more tokens a second time never lowers the capped repetition score |
| RepeatedPhrases.RepeatedPhrasesCorrect | frontend/src/components/SubmitResearch.jsx:140-146 | under 100 characters: score 0 and no phrases; otherwise: score = min(3 × surplus occurrences, 25); the phrases are the first five repeated n-grams in first-seen order (as many as there are, at most five), each once, with its count and contribution; no phrases exactly when the score is 0 |
| RepeatedPhrases.LongTextRepeats | frontend/src/components/SubmitResearch.jsx:142-146 | for 100+ characters, the result satisfies `ReportsRepeats`: the capped surplus score and the first five repeated n-grams, each once, with count and contribution |
| SentencePatterns.Lengths | frontend/src/components/SubmitResearch.jsx:151 | every sentence has a word count of at least 1 |
| SentencePatterns.SumStarterPenalty | frontend/src/components/SubmitResearch.jsx:156 | the loop over `Object.values(sp)` accumulates the opener penalty over the distinct openers |
| SentencePatterns.ScoreSentencesLoop | frontend/src/components/SubmitResearch.jsx:150-159 | given the sentences, the method computes exactly the sentence-pattern result |
| SentencePatterns.AnalyzeSentencePatterns | frontend/src/components/SubmitResearch.jsx:147-160 | the method computes exactly the sentence-pattern result for the text |
| SentencePatterns.LengthStatistics | frontend/src/components/SubmitResearch.jsx:151-153 | for lengths of at least 1, the mean is at least 1 and the variance non-negative |
| SentencePatterns.CvBucketMatchesRatio | frontend/src/components/SubmitResearch.jsx:154-157 | the square-based bucket equals the source's 15/8/3/0 bucket on `cv = sqrt(v) / avg` for any square root of `v` |
| SentencePatterns.StarterPenaltyPositive | frontend/src/components/SubmitResearch.jsx:156 | the opener penalty is positive exactly when some opener occurs three or more times |
| SentencePatterns.DistinctStarterPenaltyPositive | frontend/src/components/SubmitResearch.jsx:155-156 | over the distinct openers, the penalty is positive exactly when some opener occurs three or more times |
| SentencePatterns.ScoreSentencesRange | frontend/src/components/SubmitResearch.jsx:150-159 | for three or more sentences: the count is kept, the score is at most 25 and is a CV bucket (0, 3, 8 or 15) plus the opener penalty capped at 10, with the reported mean length at least 1 |
| SentencePatterns.RepeatedStartersPenalized | frontend/src/components/SubmitResearch.jsx:155-158 | for three or more sentences, the reported opener penalty is positive exactly when some sentence's opener occurs three or more times |
| SentencePatterns.SentencePatternsCorrect | frontend/src/components/SubmitResearch.jsx:147-160 | empty text scores 0; fewer than three long sentences score 5; otherwise CV bucket plus capped opener penalty, in [0, 25], with the reported (rounded) mean length at least 1, and an opener penalty exactly when some opener occurs three or more times |
| SuspiciousPatterns.ScanRules | frontend/src/components/SubmitResearch.jsx:164 | the loop over the rule table accumulates the total and the reported patterns as the scan function defines |
| SuspiciousPatterns.DetectSuspiciousPatterns | frontend/src/components/SubmitResearch.jsx:161-166 | the method computes exactly the scanner result for the text |
| SuspiciousPatterns.ScoreIsSumOfReported | frontend/src/components/SubmitResearch.jsx:161-166 | the scanner total equals the sum of the reported contributions |
| SuspiciousPatterns.DetectedExactly | frontend/src/components/SubmitResearch.jsx:164 | only matching rules are reported, each with its count (at least 1) and `weight * min(count, 3)`; every matching rule is reported |
| SuspiciousPatterns.DetectedCount | frontend/src/components/SubmitResearch.jsx:164 | one entry per matching rule; none exactly when no rule matches |
| SuspiciousPatterns.ScanScoreBound | frontend/src/components/SubmitResearch.jsx:164 | each rule adds at most three times its weight |
| SuspiciousPatterns.RulesWeightSum | frontend/src/components/SubmitResearch.jsx:89-105 | the fifteen rule weights add up to 340 |
| SuspiciousPatterns.RuleNamesDistinct | frontend/src/components/SubmitResearch.jsx:89-105 | the fifteen rule names are pairwise different, so the number of reported entries counted in `RiskLevels` is a number of distinct rules |
| SuspiciousPatterns.SuspiciousPatternsCorrect | frontend/src/components/SubmitResearch.jsx:161-166 | empty text scores 0; otherwise the score is the sum of the reported contributions and at most 1020, with exactly the matching rules reported |
| InternalSimilarity.CompareStride | frontend/src/components/SubmitResearch.jsx:174 | the stride-2 sentence loop computes the similarity total and comparison count as the stride function defines |
| InternalSimilarity.CompareRow | frontend/src/components/SubmitResearch.jsx:179 | the inner loop over `j > i` adds exactly the comparisons of chunk `i` with every later chunk, moving the running totals from row `i` to row `i + 1` of the pair fold |
| InternalSimilarity.PairBounds | frontend/src/components/SubmitResearch.jsx:178-179 | over any pairs, each comparison counts 0 or 1, so the similarity total lies between 0 and the comparison count |
| InternalSimilarity.StrideBounds | frontend/src/components/SubmitResearch.jsx:173-174 | the same bound for the stride-2 sentence comparisons |
| InternalSimilarity.PairsOfCopies | frontend/src/components/SubmitResearch.jsx:178-179 | for copies of one non-empty token set, every comparison is a full match, and some pair is compared once two chunks remain |
| InternalSimilarity.FullAverage | frontend/src/components/SubmitResearch.jsx:180-181 | totals in which every comparison was a full match report score 20 and 100% |
| InternalSimilarity.SentenceReportRange | frontend/src/components/SubmitResearch.jsx:175-176 | for bounded totals the sentence-mode score is 0, 8 or 15 with a percentage in [0, 100] |
| InternalSimilarity.ParagraphReportRange | frontend/src/components/SubmitResearch.jsx:180-181 | for bounded totals the paragraph-mode score is 0, 5, 12 or 20 with a percentage in [0, 100] |
| InternalSimilarity.ComparePairs | frontend/src/components/SubmitResearch.jsx:178-179 | the nested loops add up exactly the comparisons of every pair `i < j` of chunks, row by row |
| InternalSimilarity.SentenceMode | frontend/src/components/SubmitResearch.jsx:171-176 | the sentence fallback computes exactly the sentence-mode result |
| InternalSimilarity.ParagraphMode | frontend/src/components/SubmitResearch.jsx:178-181 | paragraph mode computes exactly the paragraph-mode result |
| InternalSimilarity.CalculateInternalSimilarity | frontend/src/components/SubmitResearch.jsx:167-182 | the method computes exactly the internal-similarity result for the text |
| InternalSimilarity.JaccardRange | frontend/src/components/SubmitResearch.jsx:174 | Jaccard similarity lies in [0, 1] and is 1 exactly for equal sets |
| InternalSimilarity.CompareBounds | frontend/src/components/SubmitResearch.jsx:174 | a comparison adds 0 or 1 to the count and a similarity in [0, 1] to the total |
| InternalSimilarity.AverageRange | frontend/src/components/SubmitResearch.jsx:175 | the average of bounded similarities lies in [0, 1] |
| InternalSimilarity.SentenceModeRange | frontend/src/components/SubmitResearch.jsx:171-176 | sentence mode scores 0, 8 or 15 (0 with under four long sentences) and reports a percentage in [0, 100] |
| InternalSimilarity.ParagraphModeRange | frontend/src/components/SubmitResearch.jsx:178-181 | paragraph mode scores 0, 5, 12 or 20 and reports a percentage in [0, 100] |
| InternalSimilarity.InternalSimilarityRange | frontend/src/components/SubmitResearch.jsx:167-182 | under 200 characters scores 0; otherwise the score is one of the bucket values of the mode taken, with a percentage in [0, 100] |
| InternalSimilarity.CopiesScoreTop | frontend/src/components/SubmitResearch.jsx:178-181 | copies of one paragraph with tokens reach full similarity: score 20, 100% |
| Readability.Letters | frontend/src/components/SubmitResearch.jsx:189 | the lower-cased letters `[a-z]` of a word, no longer than the word |
| Readability.Syllables | frontend/src/components/SubmitResearch.jsx:189 | proved by `SyllablesRange`: at least one syllable per word and at most one per character (or one) |
| Readability.CountSyllables | frontend/src/components/SubmitResearch.jsx:189 | the loop over the words accumulates their syllable estimates |
| Readability.CalculateReadingMetrics | frontend/src/components/SubmitResearch.jsx:183-192 | the method computes exactly the readability result for the text |
| Readability.VowelRunsBound | frontend/src/components/SubmitResearch.jsx:189 | never more vowel groups than characters, none without vowels |
| Readability.SyllablesRange | frontend/src/components/SubmitResearch.jsx:189 | each word counts at least one syllable and at most one per letter (or one) |
| Readability.ReadingMetricsRange | frontend/src/components/SubmitResearch.jsx:183-192 | short or empty text gives zero metrics; otherwise the grade lies in [0, 20] and the reading ease in [0, 100] |
| Readability.WritingConsistencyOf | frontend/src/components/SubmitResearch.jsx:193-203 | proved by `ConsistencyValues` and `EqualGradesConsistent`: one of the four threshold rows, consistency in [60, 100], under 80 exactly when the score is at least 10; full consistency for equal grade levels |
| Readability.ConsistencyValues | frontend/src/components/SubmitResearch.jsx:193-203 | the result is one of the four threshold rows: consistency in [60, 100], and under 80 exactly when the score is at least 10 |
| Readability.UniformGrades | frontend/src/components/SubmitResearch.jsx:197-201 | equal grade levels deviate nowhere from their mean, giving full consistency |
| Readability.EqualGradesConsistent | frontend/src/components/SubmitResearch.jsx:193-203 | paragraphs that share one grade level score 0 with consistency 100 |
| Engine.Analyze | frontend/src/components/SubmitResearch.jsx:204-237 | the method computes exactly the combined report |
| Engine.PlagiarismStep | frontend/src/components/SubmitResearch.jsx:212-217 | the plagiarism score of the fold |
| Engine.QualityStep | frontend/src/components/SubmitResearch.jsx:221-223 | the quality score of the fold |
| Engine.IssuesStep | frontend/src/components/SubmitResearch.jsx:224-229 | the issue list of the fold |
| Engine.CombineSteps | frontend/src/components/SubmitResearch.jsx:212-237 | the fold of the sub-analyses into the report |
| Engine.InsufficientText | frontend/src/components/SubmitResearch.jsx:205-206 | under 50 combined characters: both scores 0, risk LOW, no issues, a request for more content |
| Engine.ScoreBounds | frontend/src/components/SubmitResearch.jsx:217-223 | both scores lie in [0, 100]; quality lies in [35, 100] and is 100 exactly for 1500+ tokens, diversity 40+ and consistency 80+ |
| Engine.RiskLevels | frontend/src/components/SubmitResearch.jsx:220 | HIGH exactly at plagiarism 50+ or three reported patterns; MEDIUM exactly when not HIGH and 25+ or one pattern; LOW otherwise |
| Engine.ReportedPatternsRaiseRisk | frontend/src/components/SubmitResearch.jsx:220-225 | any reported pattern rules out LOW and heads the issue list; three make the risk HIGH |
| Engine.FiredRuleRaisesRisk | frontend/src/components/SubmitResearch.jsx:161-225 | with enough text, a matching rule of the table rules out LOW and heads the issues; three matching rules make it HIGH |
| Engine.PercentMonotone | frontend/src/components/SubmitResearch.jsx:217 | rounding then clamping to [0, 100] is monotone |
| Engine.MoreSuspiciousNeverLower | frontend/src/components/SubmitResearch.jsx:215-217 | a larger suspicious-pattern score never lowers the plagiarism score |
| Engine.ScoreFloor | frontend/src/components/SubmitResearch.jsx:212-219 | with non-negative inputs, both scores are at least 5 |
| Engine.SufficientTextFloor | frontend/src/components/SubmitResearch.jsx:204-219 | with enough text, both scores are at least 5 |
| Engine.IssuesListed | frontend/src/components/SubmitResearch.jsx:224-229 | each of the five issues is listed exactly when its condition holds, and there are at most five |
| Engine.RecommendationByRisk | frontend/src/components/SubmitResearch.jsx:230-231 | LOW recommends review; MEDIUM names the first two issues; HIGH names all of them |
| Engine.ComponentsInRange | frontend/src/components/SubmitResearch.jsx:204-219 | with enough text, the reference score and the average similarity are non-negative and the consistency is at most 100 |
| Engine.IssuesAndRecommendation | frontend/src/components/SubmitResearch.jsx:224-231 | each issue is present exactly under its condition, in push order; LOW recommends review, MEDIUM names the first two issues, HIGH all of them |
| SubmissionForm.FindType | frontend/src/components/SubmitResearch.jsx:732 | `find` by id: a result is a table entry with that id; none means no entry has it |
| SubmissionForm.ValidateStep | frontend/src/components/SubmitResearch.jsx:779-793 | proved by the lemmas below: step 0 needs a chosen type, step 1 holds exactly when the chosen type is known and no field is missing, step 2 needs a file, later steps fail |
| SubmissionForm.GetMissingFields | frontend/src/components/SubmitResearch.jsx:795-806 | proved by the lemmas below: the labels of exactly the selected type's required fields that are absent, blank or too short; nothing for an unknown type |
| SubmissionForm.CompleteIffNoMissing | frontend/src/components/SubmitResearch.jsx:779-806 | a type's required fields are all filled exactly when no label is reported missing |
| SubmissionForm.MissingLabelsExact | frontend/src/components/SubmitResearch.jsx:795-806 | every reported label belongs to a required field failing the rule, and every such field is reported |
| SubmissionForm.ValidateIffNoMissing | frontend/src/components/SubmitResearch.jsx:779-806 | at step 1, validation holds exactly when nothing is missing; an unknown type never validates and reports nothing |
| SubmissionForm.OtherSteps | frontend/src/components/SubmitResearch.jsx:779-793 | step 0 needs a selected type, step 2 a file, and any later step never validates |
| SubmissionForm.TitleAndAbstractRequired | frontend/src/components/SubmitResearch.jsx:244-472 | every research type starts with a required title and a required abstract of minimum length 50 |
| SubmissionForm.CompleteFieldsFilled | frontend/src/components/SubmitResearch.jsx:783-790 | a complete type has each required field present, non-blank and at least its minimum length |
| SubmissionForm.ValidatedHasTitleAndAbstract | frontend/src/components/SubmitResearch.jsx:244-472 | a validated details step guarantees a non-blank title and an abstract of at least 50 characters |
| HodStats.FirstIndex | frontend/src/Data/hodStatsDummy.js:15 | the position of the first `_`: none before it, and it is one (or the end) |
| HodStats.ReplaceFirst | frontend/src/Data/hodStatsDummy.js:15 | `replace("_", " ")`: same length, unchanged without `_`, else only the first `_` replaced |
| HodStats.SafeStatus | frontend/src/Data/hodStatsDummy.js:13-16 | proved by `SafeStatusSpec` and `SafeStatusFixed`: "Draft" for a missing status, otherwise the status with only its first `_` turned into a space |
| HodStats.SafeStatusSpec | frontend/src/Data/hodStatsDummy.js:13-16 | "Draft" for a missing status; otherwise same length, only the first `_` turned into a space, later ones kept |
| HodStats.SafeStatusFixed | frontend/src/Data/hodStatsDummy.js:13-16 | a status without `_` or spaces, other than "Draft", is displayed as itself and by no other raw status |
| HodStats.Accumulate | frontend/src/Data/hodStatsDummy.js:22-27 | the `reduce` over the rows leaves an exact tally of the row keys, in first-seen order |
| HodStats.Values | frontend/src/Data/hodStatsDummy.js:21 | `Object.values` yields one entry per key, in key order, with its count |
| HodStats.GroupRows | frontend/src/Data/hodStatsDummy.js:21-28 | one grouped series as the group-by function defines |
| HodStats.LoadHodStats | frontend/src/Data/hodStatsDummy.js:18-62 | the method computes exactly the four series for the rows |
| HodStats.GroupsOverFacts | frontend/src/Data/hodStatsDummy.js:21-28 | the entries follow the key order, carry each key's count, and sum to the keys' total |
| HodStats.GroupsTotal | frontend/src/Data/hodStatsDummy.js:21-28 | entries have distinct keys and counts adding up to the number of items |
| HodStats.GroupsCounts | frontend/src/Data/hodStatsDummy.js:21-28 | each entry holds its key's multiplicity, at least one |
| HodStats.GroupsCover | frontend/src/Data/hodStatsDummy.js:21-28 | every item has an entry |
| HodStats.GroupByCorrect | frontend/src/Data/hodStatsDummy.js:21-54 | a series sums to the row count, has distinct keys, counts each key's rows (at least one), and covers every row |
| HodStats.KeysCount | frontend/src/Data/hodStatsDummy.js:21-54 | a key's multiplicity is the number of rows with that key |
| HodStats.PendingApprovals | frontend/src/Data/hodStatsDummy.js:31-34 | proved by `PendingCounts` and `PendingMatchesDistribution`: the rows with raw status SUBMITTED, then those with raw status FACULTY_APPROVED, each tied exactly to the status distribution |
| HodStats.PendingCounts | frontend/src/Data/hodStatsDummy.js:31-34 | two entries, "Faculty Pending" then "HOD Pending"; the first counts the rows shown as SUBMITTED, the second plus the rows whose raw status already reads "FACULTY APPROVED" equals the rows shown as FACULTY APPROVED |
| HodStats.SubmittedShown | frontend/src/Data/hodStatsDummy.js:13-16 | a row is displayed as "SUBMITTED" exactly when its raw status is "SUBMITTED" |
| HodStats.FacultyApprovedShown | frontend/src/Data/hodStatsDummy.js:13-16 | raw "FACULTY_APPROVED" is displayed as "FACULTY APPROVED" |
| HodStats.FacultyApprovedShownExactly | frontend/src/Data/hodStatsDummy.js:13-16 | a row is shown as "FACULTY APPROVED" exactly when its raw status is "FACULTY_APPROVED" or "FACULTY APPROVED" |
| HodStats.ShownAsExactly | frontend/src/Data/hodStatsDummy.js:13-16 | a displayed status with one space and no `_` comes from exactly two raw statuses: itself and its spelling with `_` at the space |
| HodStats.KeyEntry | frontend/src/Data/hodStatsDummy.js:21-54 | a key's entry counts the rows with that key; with no entry, no row has it |
| HodStats.RowEntry | frontend/src/Data/hodStatsDummy.js:21-54 | every row's key has an entry counting all rows with that key |
| HodStats.PendingMatchesDistribution | frontend/src/Data/hodStatsDummy.js:21-34 | the faculty count equals the SUBMITTED entry, the HOD count plus the raw "FACULTY APPROVED" rows equals the FACULTY APPROVED entry, and each is 0 without its entry |
| HodStats.SeriesTotals | frontend/src/Data/hodStatsDummy.js:21-54 | the status, monthly and faculty series each sum to the number of rows |
| HodStats.UnknownCount | frontend/src/Data/hodStatsDummy.js:39-49 | the "Unknown" key counts the rows with no month (faculty) or with "Unknown" written in |
| HodStats.DraftBucket | frontend/src/Data/hodStatsDummy.js:14-23 | a row without status appears under "Draft" |
| HodStats.UnknownBucket | frontend/src/Data/hodStatsDummy.js:37-54 | a row with no month (faculty) appears under an "Unknown" entry counting exactly those rows and rows naming "Unknown" |

## Left out

- Suspicious-pattern regular expressions: the model has no regex engine, so the rule table keeps each pattern's source text and flags. A `Matcher` parameter gives the number of matches of a rule in a text. All scanner properties hold for every matcher.
- `vocabulary_richness` (`u.size / Math.sqrt(n)`) is left out, because it needs a square root and feeds no score.
- The coefficient of variation is never computed. Its bucket is decided by comparing squares, and `CvBucketMatchesRatio` shows this agrees with `sqrt(v) / avg`.
- The display strings are left out: the `toFixed` text of variance, cv, maxDiff, avgGrade, diversity and richness. Where such a string is parsed back into a number (the grade level, the average similarity), its value is modelled as `RoundTo1`.
- The summary string and the recommendation wording are left out. The recommendation is modelled as what it says: which message, and which issues it names.
- String lengths count code points, whereas JavaScript counts UTF-16 units. The two differ only for characters outside the Basic Multilingual Plane.
- `toLowerCase` is modelled for ASCII letters only.
- `\s` follows the ECMAScript white-space and line-terminator set.
- Object key order: JavaScript lists integer-like keys (such as "2024") first, in ascending order. The model keeps insertion order for every key.
- Missing, `null` and `undefined` values of the title, abstract, body, form fields and CSV cells are all modelled as the empty string, since the code treats them all as falsy.
- Form values are assumed to be strings.
- The other steps of the submission component are left out: PDF text extraction, file upload, database writes, navigation and React state. Whether a file is chosen becomes a boolean parameter of `ValidateStep`.
- CSV parsing of the statistics rows is left out, because it is a library call. The parsed rows are a parameter.
- The division by zero in the base similarity is modelled by its result. With reference-phrase matches but no tokens, JavaScript computes `Infinity` and the cap gives 35.
- RepeatedPhrases.PastedTwiceNeverLower: holds for a pasted block of at least six tokens. A shorter block can lower the score, because a 4..7-gram can span the whole block. The tokens `a b c d e a b c d` score 3 (the 4-gram "a b c d" occurs twice), while pasting `b` a second time gives `a b b c d e a b c d`, which scores 0.
- The plagiarism score is not monotone under pasting, so no such lemma is stated for it. With a document body, a combined text that grows past 300 tokens lowers the short-document extra from 15 to 8.
- Floating point: JavaScript numbers are IEEE doubles, and the model computes with exact reals. At a rounding tie the two can round differently. This affects `Text.RoundTo1` in the average similarity and in the grade levels behind the consistency thresholds, and `Text.Round` in the plagiarism and similarity scores.
- Plain-object accumulators: the counting objects are modelled as maps. In JavaScript a key that names an `Object.prototype` member misbehaves. A month or faculty `"__proto__"` writes onto the prototype, so its rows drop out of `Object.values`. A key `"constructor"` lists the `Object` function itself, with count NaN. A sentence opener `"constructor"` makes the tally a string, so `c >= 3` fails. `HodStats.SeriesTotals`, `HodStats.GroupByCorrect` and the sentence-opener penalty hold only for keys that are not such names.
- Too-short text: the source returns `metrics: {}` and `details: {}`. `Engine.Insufficient` fills the metrics with 0 (quality, word count and writing consistency) and the details with empty results.
