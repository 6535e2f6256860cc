# Answer matching and scoring in the HelloAgents-go evaluation package

This project models, in Dafny, the part of HelloAgents-go's evaluation
package that decides whether an agent's answer is right and how a run is
scored, together with the image package's small utilities.

- **GAIA** (free-text question answering). Covers:
  - dataset record extraction and level filtering;
  - answer extraction from the agent's reply;
  - answer normalisation;
  - exact, partial and word-coverage matching with the 1 / 0.5 / 0 score;
  - the evaluation loop with cancellation;
  - per-level metrics and the difficulty-progression classifier;
  - export entries, the level table and the failed-sample list.
- **BFCL** (function calling). Covers:
  - dataset records, tools and ground-truth keying;
  - extraction of the predicted calls through four fallbacks;
  - ground-truth parsing in all its shapes, including Python-style call strings;
  - per-parameter value comparison;
  - best-match-per-expected-call scoring with the all-or-nothing success rule;
  - accuracy, precision, recall and F1;
  - category metrics and export entries.
- **Data generation**. Covers:
  - the JSONL dataset;
  - the LLM judge's prompt, including the pairing of reference samples;
  - reply parsing: four dimensions that default to 3, with no clamping;
  - the pass (mean at least 3) and excellent (at least 4) rules;
  - the judge's summary metrics.
- **Shared records and options**. Covers the evaluation records, their rates and
  means, and `EvalConfig` with its functional options.
- **Images**. Covers:
  - the `WWWWxHHHH` size formatter and parser, with Go's 64-bit and
    32-bit integer conversions written out;
  - the pixel count;
  - provider-name aliases;
  - constructor dispatch and the option list built from a configuration;
  - the sentinel errors, wrapping and the retryable/fatal classification.

Some behaviour comes from outside this code and is taken as a parameter:

- the agent's and the judge's replies;
- JSON decoding, `%v` formatting and `Sscanf("%f")`;
- Go's map iteration order;
- the existence and contents of files.

`json.Unmarshal` into a variable that already holds a value keeps the
fields the text does not set, and may set some fields before it fails.
So the BFCL call decoders take the variable's previous value and give
back its new value and whether decoding succeeded. The extractor's
`calls` and `singleCall` are threaded from one attempt to the next, as
in the source.

Every property is proved for all values of these parameters. Go's
`float64` arithmetic is modelled with reals.

Objects that the source updates in place are classes whose methods state
their whole new state: datasets, the evaluation configuration and `*int`
output cells. Loops in the source are methods proved against
specification functions, and the lemmas about those functions carry the
properties. Everything else is datatypes and functions.

`normalizeAnswer` strips at most one leading article, so it is not
idempotent: "the the x" normalises to "the x", and that normalises to
"x" (`GaiaAnswers.NormalizeNotIdempotent`).

## Model

| member | source | states |
|---|---|---|
| Options.EvalConfig.Default | pkg/evaluation/options.go:32-40 | the default configuration: no sample cap, a five-minute timeout, no callback, no intermediate saving, output under `./evaluation_results`, not verbose |
| Options.SetterChangesOnlyItsField | pkg/evaluation/options.go:52-106 | each `With*` option stores its value in its own field and leaves every other field as it was |
| Options.EvalConfig.Apply | pkg/evaluation/options.go:52-106 | running one option closure on the configuration object gives the configuration that option describes |
| Options.EvalConfig.ApplyOptions | pkg/evaluation/options.go:42-50 | the options run left to right on the object in place |
| Options.UntouchedFieldKept | pkg/evaluation/options.go:42-50 | a field no option targets keeps its value |
| Options.LastOptionWins | pkg/evaluation/options.go:42-50 | the last option targeting a field decides its value |
| Options.SamplesToEvaluate | pkg/evaluation/benchmarks/gaia/evaluator.go:52-55 | the number of samples visited is the dataset length, capped by a positive `MaxSamples` and by nothing otherwise |
| Options.ProgressReports | pkg/evaluation/benchmarks/gaia/evaluator.go:94-97 | with a callback set, it receives `(k + 1, total)` after sample `k`, once per evaluated sample; without one, nothing |
| Options.Evaluated | pkg/evaluation/benchmarks/gaia/evaluator.go:59-64 | a context cancelled before sample `c < total` stops the loop after exactly `c` samples; otherwise all `total` are evaluated |
| EvalTypes.WinnerLabel | pkg/evaluation/types.go:239-240 | the winner label is one of "A", "B" or "Tie" |
| EvalTypes.WinnerLabelInjective | pkg/evaluation/types.go:239-240 | different winners have different labels |
| EvalTypes.RateMeaning | pkg/evaluation/types.go:142-160 | a rate times its group size is the count, an empty group has rate 0, and a count within the group gives a rate in [0, 1] |
| EvalTypes.DimensionMean | pkg/evaluation/types.go:211-229 | four times the total score is the sum of the four judged dimensions |
| EvalTypes.DimensionMeanBounds | pkg/evaluation/types.go:211-229 | the total score lies between the lowest and the highest dimension |
| EvalTypes.DimensionMeanFixture | pkg/evaluation/types_test.go:136-150 | dimensions 4, 5, 4 and 3 give a total score of 4 |
| EvalTypes.Successes | pkg/evaluation/types.go:88-122 | the success count never exceeds the number of results |
| EvalTypes.SuccessesSnoc | pkg/evaluation/benchmarks/gaia/evaluator.go:89-92 | appending a result adds one to the success count exactly when it succeeded |
| GaiaAnswers.NumberCommaAt | pkg/evaluation/benchmarks/gaia/evaluator.go:283-284 | the string matches `(\d),(\d{3})` exactly when some position holds a digit, a comma and three digits |
| GaiaAnswers.CommaPass | pkg/evaluation/benchmarks/gaia/evaluator.go:285 | one `ReplaceAllString` pass never lengthens the string and keeps its characters in order |
| GaiaAnswers.CommaPassShrinks | pkg/evaluation/benchmarks/gaia/evaluator.go:284-285 | a pass over a matching string removes at least one comma, so the loop ends |
| GaiaAnswers.CommaPassDeletesOnlyCommas | pkg/evaluation/benchmarks/gaia/evaluator.go:285 | a pass deletes commas and nothing else |
| GaiaAnswers.RemoveNumberCommas | pkg/evaluation/benchmarks/gaia/evaluator.go:281-288 | the loop ends with no digit-comma-three-digits run left, deletes only commas, and keeps every other character in order |
| GaiaAnswers.StripCommasProperties | pkg/evaluation/benchmarks/gaia/evaluator.go:281-288 | the function the loop computes has the loop's three guarantees |
| GaiaAnswers.StripCommasFixtures | pkg/evaluation/benchmarks/gaia/metrics_test.go:32-49 | `1,000,000` becomes `1000000` (the second comma goes on the second pass); `1,23` and `123` stay; `1,2345` becomes `12345` |
| GaiaAnswers.StripCommasMillion | pkg/evaluation/benchmarks/gaia/metrics_test.go:32-49 | `1,000,000` needs two passes of the replacement to become `1000000` |
| GaiaAnswers.SecondPassMillion | pkg/evaluation/benchmarks/gaia/evaluator.go:281-289 | after the first pass `1000,000` still matches, and the second pass removes its comma |
| GaiaAnswers.StripCommasUnanchored | pkg/evaluation/benchmarks/gaia/metrics_test.go:32-49 | `1,2345` is rewritten to `12345`, since the pattern is not anchored at a word end |
| GaiaAnswers.NoCommaNoMatch | pkg/evaluation/benchmarks/gaia/evaluator.go:283 | a string without commas has no number comma |
| GaiaAnswers.NormalizeAnswer | pkg/evaluation/benchmarks/gaia/evaluator.go:246-278 | `normalizeAnswer` step by step computes the normal form |
| GaiaAnswers.StripArticleRemovesOne | pkg/evaluation/benchmarks/gaia/evaluator.go:250-257 | at most one article goes, only from the front: the result is a suffix, shorter by exactly one article's length when it differs |
| GaiaAnswers.NormalizeProperties | pkg/evaluation/benchmarks/gaia/evaluator.go:246-278 | the normal form is lower case, holds none of `$ % ¥ € £`, and has white space only as single spaces between words |
| GaiaAnswers.StripArticleNoSpace | pkg/evaluation/benchmarks/gaia/evaluator.go:251-257 | a string without spaces loses no article, since every article ends in a space |
| GaiaAnswers.NormalizeBareProperties | pkg/evaluation/benchmarks/gaia/evaluator.go:265-275 | after symbol removal, comma clean-up and white-space collapsing, every character is a single separating space or a non-symbol character of the input |
| GaiaAnswers.RemoveSymbolsChars | pkg/evaluation/benchmarks/gaia/evaluator.go:265-269 | the five replacements leave only characters of the input that are not `$ % ¥ € £` |
| GaiaAnswers.LoweredPrefix | pkg/evaluation/benchmarks/gaia/evaluator.go:250-263 | removing an article and trailing punctuation keeps only characters of the lowered answer |
| GaiaAnswers.NormalizeSteps | pkg/evaluation/benchmarks/gaia/evaluator.go:246-278 | the normal form is the composition of trimming and lowering, article stripping, punctuation trimming and the symbol, comma and space passes |
| GaiaAnswers.NormalizeWord | pkg/evaluation/benchmarks/gaia/metrics_test.go:9-30 | a plain word that does not end in punctuation is its own normal form |
| GaiaAnswers.NormalizeArticleWord | pkg/evaluation/benchmarks/gaia/metrics_test.go:9-30 | "the ", "a " or "an " before a plain word is removed |
| GaiaAnswers.NormalizeSymbolWord | pkg/evaluation/benchmarks/gaia/metrics_test.go:9-30 | a leading currency or percent sign before a plain word is removed |
| Text.FieldsOfTwoWords | pkg/evaluation/benchmarks/gaia/evaluator.go:275-276 | `strings.Fields` splits two words joined by one space into exactly those two words |
| GaiaAnswers.NormalizeTheTheWord | pkg/evaluation/benchmarks/gaia/evaluator.go:251-257 | of "the the " before a plain word only the first article is stripped, so the normal form still starts with "the " |
| GaiaAnswers.NormalizeNotIdempotent | pkg/evaluation/benchmarks/gaia/evaluator.go:246-278 | normalisation is not idempotent: normalising the normal form of "the the w" strips the second article and gives a different string |
| GaiaAnswers.RemoveSymbolsConcat | pkg/evaluation/benchmarks/gaia/evaluator.go:265-269 | the symbol removal works character by character |
| GaiaAnswers.WordsFound | pkg/evaluation/benchmarks/gaia/evaluator.go:230-235 | the number of expected words found is at most the number of expected words |
| GaiaAnswers.EvaluateMatch | pkg/evaluation/benchmarks/gaia/evaluator.go:211-243 | exact exactly when the normal forms are equal; partial exactly by containment either way or by at least 70% word coverage; exact implies partial |
| GaiaAnswers.CountFound | pkg/evaluation/benchmarks/gaia/evaluator.go:230-235 | the count is the number of expected words, repeats included, that occur in the normalized prediction |
| GaiaAnswers.EmptyPredictionIsPartial | pkg/evaluation/benchmarks/gaia/evaluator.go:223-225 | an empty normal form of the prediction is always a partial match, because "" is contained in every string |
| GaiaAnswers.ContainmentIsPartial | pkg/evaluation/benchmarks/gaia/evaluator.go:223-225 | containment either way is a partial match |
| GaiaAnswers.CoverageFixtures | pkg/evaluation/benchmarks/gaia/evaluator.go:227-240 | coverage counts substrings and needs 70%: three of four words pass, two of three do not |
| GaiaAnswers.CoverageThreeOfFour | pkg/evaluation/benchmarks/gaia/evaluator.go:227-240 | `alpha`, `beta` and `gamma` occur in the prediction and `delta` does not: three words are found |
| GaiaAnswers.CoverageTwoOfThree | pkg/evaluation/benchmarks/gaia/evaluator.go:227-240 | `paris` and `france` occur in the prediction and `of` does not: two words are found |
| GaiaAnswers.MatchScore | pkg/evaluation/benchmarks/gaia/evaluator.go:163-167 | the score is 1.0 exactly for an exact match, 0.5 exactly for a partial match that is not exact, 0.0 otherwise |
| GaiaAnswers.MatchToken | pkg/evaluation/benchmarks/gaia/evaluator.go:183-188 | a token of a marker pattern that matches consumes at least one character |
| GaiaAnswers.MatchTokens | pkg/evaluation/benchmarks/gaia/evaluator.go:183-188 | a token sequence that matches ends within the text |
| GaiaAnswers.LastNonNewline | pkg/evaluation/benchmarks/gaia/evaluator.go:183-188 | the position found is the last one in its range that is not a newline; none means every position there is a newline |
| GaiaAnswers.Capture | pkg/evaluation/benchmarks/gaia/evaluator.go:183-188 | the captured group `(.+?)` is non-empty and holds no newline |
| GaiaAnswers.FindMatch | pkg/evaluation/benchmarks/gaia/evaluator.go:192 | the group `FindStringSubmatch` returns is non-empty and holds no newline |
| GaiaAnswers.FindMatchNowhere | pkg/evaluation/benchmarks/gaia/evaluator.go:192-193 | no group is found exactly when the pattern matches at no position |
| GaiaAnswers.FindMatchLeftmost | pkg/evaluation/benchmarks/gaia/evaluator.go:192-193 | the group found is the one of the leftmost matching position |
| GaiaAnswers.FirstPatternMatch | pkg/evaluation/benchmarks/gaia/evaluator.go:190-196 | the group of the first pattern that matches is non-empty and holds no newline |
| GaiaAnswers.LastNonBlankLineExists | pkg/evaluation/benchmarks/gaia/evaluator.go:199-205 | the backwards scan finds a line whenever some line is not blank |
| GaiaAnswers.LastNonBlankLineIsLine | pkg/evaluation/benchmarks/gaia/evaluator.go:199-205 | the line found is one of the lines, trimmed, and not blank |
| GaiaAnswers.FindLastNonBlankLine | pkg/evaluation/benchmarks/gaia/evaluator.go:199-205 | the backwards loop over the lines returns the last non-blank one, trimmed |
| GaiaAnswers.ExtractAnswer | pkg/evaluation/benchmarks/gaia/evaluator.go:176-208 | `extractAnswer` computes the marker group, trimmed, or else the last non-blank line |
| GaiaAnswers.NonBlankHasLine | pkg/evaluation/benchmarks/gaia/evaluator.go:199-207 | a trimmed non-empty response has a non-blank line, so the final `return response` is never reached with a non-empty response |
| GaiaAnswers.ExtractedIsOneTrimmedLine | pkg/evaluation/benchmarks/gaia/evaluator.go:176-208 | the answer is one line without surrounding white space; empty for a blank response; non-empty when no marker matched |
| GaiaAnswers.MarkerGroupIsTrimmedLine | pkg/evaluation/benchmarks/gaia/evaluator.go:193-194 | a marker's group, trimmed, is one line without surrounding white space |
| GaiaAnswers.FallbackIsTrimmedLine | pkg/evaluation/benchmarks/gaia/evaluator.go:199-205 | the fallback line is non-empty, one line, without surrounding white space |
| GaiaAnswers.ColonMissingPattern | pkg/evaluation/benchmarks/gaia/evaluator.go:183-188 | a pattern whose colon token finds no colon in the text matches nowhere |
| GaiaAnswers.NoColonNoMarker | pkg/evaluation/benchmarks/gaia/evaluator.go:183-196 | every marker needs `:` or `：`: a text with neither has no marker |
| GaiaAnswers.ExtractedWithoutMarker | pkg/evaluation/benchmarks/gaia/evaluator.go:198-205 | without a marker, a non-blank response's answer is its last non-blank line |
| GaiaAnswers.ExtractedWithMarker | pkg/evaluation/benchmarks/gaia/evaluator.go:190-196 | with a marker, the answer is the marker's group, trimmed |
| GaiaAnswers.CaptureLine | pkg/evaluation/benchmarks/gaia/evaluator.go:184 | after the marker, `\s*` takes the spaces and the group is the rest of the line |
| GaiaAnswers.FinalAnswerMatch | pkg/evaluation/benchmarks/gaia/evaluator.go:184 | `FINAL ANSWER: x` matches the first pattern case-insensitively with group `x` |
| GaiaAnswers.FinalAnswerMarker | pkg/evaluation/benchmarks/gaia/evaluator.go:176-196 | the answer of `FINAL ANSWER: x` is `x` |
| GaiaAnswers.ChineseAnswerMatch | pkg/evaluation/benchmarks/gaia/evaluator.go:185 | `答案：x` matches the second pattern with group `x` when `x` has no ASCII colon |
| GaiaAnswers.ChineseAnswerMarker | pkg/evaluation/benchmarks/gaia/evaluator.go:176-196 | the answer of `答案：x` is `x` |
| GaiaDataset.IdPrecedence | pkg/evaluation/benchmarks/gaia/dataset.go:176-184 | the ID is a string `task_id`, otherwise `gaia_{idx}` |
| GaiaDataset.FieldPrecedence | pkg/evaluation/benchmarks/gaia/dataset.go:186-212 | the input comes from `question`, else `Question`, else is empty; the expected answer from `final_answer`, else `Final answer`, else `expected_answer`; non-string values are passed over |
| GaiaDataset.LevelPrecedence | pkg/evaluation/benchmarks/gaia/dataset.go:193-200 | the level is a numeric `level`, else a numeric `Level`, truncated toward zero, else 0 |
| GaiaDataset.CategoryDeterminesLevel | pkg/evaluation/benchmarks/gaia/dataset.go:202-203 | the category is `level_{Level}`, so equal categories mean equal levels |
| GaiaDataset.FilesPrecedence | pkg/evaluation/benchmarks/gaia/dataset.go:214-219 | at most one file: a non-empty `file_name`, else a non-empty `file_path`; never an empty name |
| GaiaDataset.RowsParsedAt | pkg/evaluation/benchmarks/gaia/dataset.go:109-136 | for the JSONL loop with any item parser, the k-th kept row is parsed with the count of rows kept before it, so the results line up one to one with the kept rows |
| GaiaDataset.JsonlIndexCountsKeptRows | pkg/evaluation/benchmarks/gaia/dataset.go:109-136 | in JSONL the k-th kept sample gets index k: blank, malformed and filtered-out lines do not advance it |
| GaiaDataset.LoadersKeepOnlyFilteredLevel | pkg/evaluation/benchmarks/gaia/dataset.go:129-132 | every sample either loader keeps passes the level filter |
| GaiaDataset.KeptPositionsBounds | pkg/evaluation/benchmarks/gaia/dataset.go:154-169 | the kept positions of a JSON array lie within it, and without a filter every position is kept |
| GaiaDataset.KeptParsedAt | pkg/evaluation/benchmarks/gaia/dataset.go:154-169 | for the JSON loop with any item parser, there are as many results as kept positions, and the k-th result is the item at the k-th kept position parsed with that position |
| GaiaDataset.JsonIndexIsPosition | pkg/evaluation/benchmarks/gaia/dataset.go:154-169 | in JSON the k-th kept sample is parsed with its own array position as its index, unlike JSONL |
| GaiaDataset.Dataset.constructor | pkg/evaluation/benchmarks/gaia/dataset.go:45-55 | the split defaults to `validation`; the dataset starts empty and unloaded |
| GaiaDataset.Dataset.LoadJsonl | pkg/evaluation/benchmarks/gaia/dataset.go:99-139 | the loop appends the kept samples of the decoded lines and changes nothing else |
| GaiaDataset.Dataset.LoadJson | pkg/evaluation/benchmarks/gaia/dataset.go:142-172 | the loop appends the kept samples of the decoded array and changes nothing else |
| GaiaDataset.Dataset.LoadFile | pkg/evaluation/benchmarks/gaia/dataset.go:78-86 | the extension picks the loader; its samples are appended and its success reported |
| GaiaDataset.Dataset.Load | pkg/evaluation/benchmarks/gaia/dataset.go:58-96 | a loaded dataset is left alone; a missing directory is an error; otherwise the candidate files are tried in order until one loads; the result is an error exactly when no sample was loaded |
| GaiaDataset.Dataset.LoadCandidates | pkg/evaluation/benchmarks/gaia/dataset.go:77-88 | the samples become the old samples followed by each tried file's samples, stopping after the first file whose loader succeeds; no other field changes |
| GaiaDataset.FallbackStep | pkg/evaluation/benchmarks/gaia/dataset.go:77-88 | the first candidate's samples come first, and the rest of the list is tried only when its loader failed |
| GaiaDataset.Dataset.Get | pkg/evaluation/benchmarks/gaia/dataset.go:230-235 | a sample exactly for an index in `[0, Len())`, and it is the stored one |
| GaiaDataset.Dataset.Name | pkg/evaluation/benchmarks/gaia/dataset.go:250-255 | `GAIA_{split}_Level{level}` with a positive level filter, `GAIA_{split}` otherwise |
| GaiaDataset.Dataset.GetLevelDistribution | pkg/evaluation/benchmarks/gaia/dataset.go:263-269 | the keys are the levels present, each mapped to its positive number of samples |
| GaiaDataset.LevelDistributionSumsToLen | pkg/evaluation/benchmarks/gaia/dataset.go:263-269 | the distribution accounts for every sample exactly once |
| GaiaDataset.NamesDistinguishLevels | pkg/evaluation/benchmarks/gaia/dataset.go:250-253 | two positive level filters on the same split give different names |
| GaiaEvaluator.EvaluateSample | pkg/evaluation/benchmarks/gaia/evaluator.go:116-173 | the result of one sample is `SampleOutcome`, the function the lemmas below characterise |
| GaiaEvaluator.ScoreAnswer | pkg/evaluation/benchmarks/gaia/evaluator.go:143-172 | a responded sample is scored from its extracted answer |
| GaiaEvaluator.SampleOutcomeMeaning | pkg/evaluation/benchmarks/gaia/evaluator.go:116-173 | the result keeps the sample's ID, level and category; success is the exact match of the normal forms, partial success the looser rule, score 1.0, 0.5 or 0.0 accordingly; an agent error or a non-string expected answer gives an error and no success |
| GaiaEvaluator.EmptyAnswerScoresPartial | pkg/evaluation/benchmarks/gaia/evaluator.go:159-167 | an answer whose normal form is empty always scores at least 0.5 |
| GaiaEvaluator.Outcomes | pkg/evaluation/benchmarks/gaia/evaluator.go:59-98 | one result per evaluated sample |
| GaiaEvaluator.OutcomeAt | pkg/evaluation/benchmarks/gaia/evaluator.go:59-98 | result `k` is the score of sample `k` |
| GaiaEvaluator.OutcomesPrefix | pkg/evaluation/benchmarks/gaia/evaluator.go:59-98 | a cancelled run's results are a prefix of the full run's |
| GaiaEvaluator.OutcomesScored | pkg/evaluation/benchmarks/gaia/evaluator.go:59-98 | every covered sample is scored |
| GaiaEvaluator.EvaluateNext | pkg/evaluation/benchmarks/gaia/evaluator.go:66-87 | one loop step gives the result expected for sample `i` |
| GaiaEvaluator.Evaluate | pkg/evaluation/benchmarks/gaia/evaluator.go:34-113 | the dataset ends as its `Load` leaves it (old samples plus the loaded files' samples, loaded when non-empty); there is no result exactly when that load fails, with its wrapped error; otherwise the first `total` samples are scored in order, successes counted, progress reported; cancellation returns the partial result with the context error; a complete run adds accuracy, the level table and the summary |
| GaiaEvaluator.RunSamples | pkg/evaluation/benchmarks/gaia/evaluator.go:58-98 | the loop appends the expected results in order until done or cancelled, counting successes and reporting progress |
| GaiaEvaluator.Finish | pkg/evaluation/benchmarks/gaia/evaluator.go:100-112 | the accuracy is successes over total samples, then the level table and the summary |
| GaiaExport.Entries | pkg/evaluation/benchmarks/gaia/export.go:42-57 | one entry per result, in order |
| GaiaExport.Export | pkg/evaluation/benchmarks/gaia/export.go:40-59 | all entries are written in order, or those before the failing one and then the write error |
| GaiaExport.SubmittedAnswer | pkg/evaluation/benchmarks/gaia/export.go:43-52 | the submitted answer is the extracted answer, "" when the agent failed; the entry carries the sample ID |
| GaiaExport.EmptyAnswerSubmitted | pkg/evaluation/benchmarks/gaia/export.go:48-52 | an empty predicted string is submitted as is, even when the agent responded |
| GaiaExport.LevelTable | pkg/evaluation/benchmarks/gaia/export.go:104-110 | the report loop over levels 1 to 3 builds the level rows |
| GaiaExport.LevelTableMeaning | pkg/evaluation/benchmarks/gaia/export.go:100-110 | the table lists each of the levels 1, 2 and 3 the map holds, with its metrics, in ascending order, and no other level |
| GaiaExport.LevelRowsUnrolled | pkg/evaluation/benchmarks/gaia/export.go:104-110 | the table is the row of level 1 when the map holds it, then that of level 2, then that of level 3 |
| GaiaExport.ThreeRowsMeaning | pkg/evaluation/benchmarks/gaia/export.go:104-110 | those three optional rows list the held levels among 1 to 3, each with its metrics, ascending |
| GaiaExport.RowAppended | pkg/evaluation/benchmarks/gaia/export.go:104-110 | one more loop iteration extends a listing of the levels up to the previous one to a listing up to the current one |
| GaiaExport.PresentRowAppended | pkg/evaluation/benchmarks/gaia/export.go:105-109 | a held level's row goes after the rows of all lower levels, keeping the order strict |
| GaiaMetrics.Compute | pkg/evaluation/benchmarks/gaia/metrics.go:16-58 | the one-pass accumulation computes the summary |
| GaiaMetrics.SummaryProperties | pkg/evaluation/benchmarks/gaia/metrics.go:16-58 | accuracy is the share of exact matches and equals the exact-match rate; both rates lie in [0, 1]; the error count is at most the number of results |
| GaiaMetrics.SummaryFixture | pkg/evaluation/benchmarks/gaia/metrics_test.go:58-81 | two exact and three partial matches among three results give accuracy 2/3 |
| GaiaMetrics.LevelOf | pkg/evaluation/benchmarks/gaia/metrics.go:65-68 | level 0 is counted as level 1; any other level as itself |
| GaiaMetrics.CountsOnlySnoc | pkg/evaluation/benchmarks/gaia/metrics.go:64-84 | one more result adds to its own level's counters only |
| GaiaMetrics.ComputeLevelMetrics | pkg/evaluation/benchmarks/gaia/metrics.go:61-95 | the two passes compute the level table |
| GaiaMetrics.CountLevels | pkg/evaluation/benchmarks/gaia/metrics.go:64-84 | the counting pass gives each present level its counts |
| GaiaMetrics.CountResult | pkg/evaluation/benchmarks/gaia/metrics.go:65-83 | one step of the counting loop reads level 0 as level 1, starts a row for a new level, and counts the result once in total, once more if exact and once more if partial |
| GaiaMetrics.TableStep | pkg/evaluation/benchmarks/gaia/metrics.go:64-84 | after one step the table's levels are those of the results seen so far and every row holds their counts |
| GaiaMetrics.FillRates | pkg/evaluation/benchmarks/gaia/metrics.go:87-92 | the rate pass gives every row its two rates and keeps the keys |
| GaiaMetrics.LevelTotalsSumToCount | pkg/evaluation/benchmarks/gaia/evaluator.go:291-324 | each row's total is its level's result count; matches never exceed it; the totals add up to the number of results; no row is keyed 0 |
| GaiaMetrics.CopiesCounted | pkg/evaluation/benchmarks/gaia/metrics.go:64-83 | n more results of one level add n to its total, and n to its exact and partial counters when the result matches that way |
| GaiaMetrics.LevelRatesFixture | pkg/evaluation/types_test.go:71-88 | fifty level-1 results, forty exact and five more partial, give the row 50 / 40 / 45 with rates 0.8 and 0.9 |
| GaiaMetrics.LevelOneFixture | pkg/evaluation/benchmarks/gaia/metrics_test.go:83-116 | level 1 of the test holds two results, one exact, rate 0.5 |
| GaiaMetrics.LevelTwoThreeFixture | pkg/evaluation/benchmarks/gaia/metrics_test.go:83-116 | levels 2 and 3 of the test hold two results and one |
| GaiaMetrics.LevelRates | pkg/evaluation/benchmarks/gaia/metrics.go:101-107 | one rate per level, its exact-match rate |
| GaiaMetrics.Drops | pkg/evaluation/benchmarks/gaia/metrics.go:109-125 | a drop exists for exactly each present pair of levels 1, 2 and 3 and is the easier level's rate minus the harder one's |
| GaiaMetrics.Pattern | pkg/evaluation/benchmarks/gaia/metrics.go:127-138 | no pattern below two levels; the expected degradation, the level-2 anomaly or inconsistent by the source's conditions, absent levels reading 0 |
| GaiaMetrics.ProgressionFixture | pkg/evaluation/benchmarks/gaia/metrics_test.go:118-143 | rates 0.8, 0.5 and 0.2 drop by 0.3 and 0.6 and read as the expected degradation |
| GaiaMetrics.AbsentLevelReadsZero | pkg/evaluation/benchmarks/gaia/metrics.go:129-133 | with only levels 2 and 3 and a positive level-2 rate, the pattern is the level-2 anomaly |
| BfclParsing.CandidateEnd | pkg/evaluation/benchmarks/bfcl/evaluator.go:231 | the lazy list match starting at a `[` ends just past a `]`, at least nine characters on |
| BfclParsing.ListCandidatesShape | pkg/evaluation/benchmarks/bfcl/evaluator.go:231-232 | every list candidate is a bracketed slice of the text long enough to hold `[{"name"}]` |
| BfclParsing.FirstNonEmptyList | pkg/evaluation/benchmarks/bfcl/evaluator.go:234-239 | a candidate is used only when it decodes to a non-empty list |
| BfclParsing.FirstNonEmptyListNone | pkg/evaluation/benchmarks/bfcl/evaluator.go:234-239 | no candidate is used exactly when every candidate fails to decode or decodes to an empty list |
| BfclParsing.BlockCallsNone | pkg/evaluation/benchmarks/bfcl/evaluator.go:248-260 | no code block gives calls exactly when each block's trimmed content, decoded into the `calls` and `singleCall` left by the attempts before it, decodes neither as a list nor as a named call |
| BfclParsing.StateCarriedBetweenBlocks | pkg/evaluation/benchmarks/bfcl/evaluator.go:242-258 | a block that fails leaves its partly decoded `singleCall` behind, and the next block is decoded on top of it |
| BfclParsing.ExtractFunctionCalls | pkg/evaluation/benchmarks/bfcl/evaluator.go:217-263 | the four attempts in order, with `calls` and `singleCall` reused from step 1 and step 3 into the code blocks, compute the extraction cascade |
| BfclParsing.FirstListed | pkg/evaluation/benchmarks/bfcl/evaluator.go:234-239 | the loop over the list candidates returns the first that decodes to a non-empty list |
| BfclParsing.FirstBlock | pkg/evaluation/benchmarks/bfcl/evaluator.go:250-260 | the loop over the fenced blocks, carrying `calls` and `singleCall` from block to block, returns the first whose trimmed content decodes as a list, or else as a named call |
| BfclParsing.ExtractionFails | pkg/evaluation/benchmarks/bfcl/evaluator.go:217-263 | extraction fails exactly on a blank reply (with "空响应") or when every attempt fails, each block judged on the state the earlier attempts left (with the final error) |
| BfclParsing.ExtractionOrder | pkg/evaluation/benchmarks/bfcl/evaluator.go:225-239 | when the whole reply is not a list but contains a non-empty decodable list, extraction succeeds with calls |
| BfclParsing.NonCommaRun | pkg/evaluation/benchmarks/bfcl/evaluator.go:432 | `[^,]+` takes the longest prefix without a comma and stops at a comma |
| BfclParsing.ArgMatchAt | pkg/evaluation/benchmarks/bfcl/evaluator.go:432-433 | a match of `(\w+)\s*=\s*([^,]+)` gives a non-empty word name and a non-empty value without commas |
| BfclParsing.ArgPairs | pkg/evaluation/benchmarks/bfcl/evaluator.go:433-446 | every matched pair has a non-empty name and a non-empty comma-free value |
| BfclParsing.ArgMapKeys | pkg/evaluation/benchmarks/bfcl/evaluator.go:434-446 | the argument map has exactly one key per matched name |
| BfclParsing.ArgMapLastWins | pkg/evaluation/benchmarks/bfcl/evaluator.go:434-446 | a repeated name holds the value of its last match |
| BfclParsing.PythonCall | pkg/evaluation/benchmarks/bfcl/evaluator.go:412-449 | parsing succeeds exactly when the trimmed text is `name(...)`; the name is a non-empty word prefix; failure carries "无法解析 Python 函数调用: " and the text |
| BfclParsing.EmptyParenthesesNoArguments | pkg/evaluation/benchmarks/bfcl/evaluator.go:427-429 | `f()` gives `f` with no arguments |
| BfclParsing.WordRunOf | pkg/evaluation/benchmarks/bfcl/evaluator.go:418 | `\w+` takes a word exactly up to the first non-word character |
| BfclParsing.SpecArgs | pkg/evaluation/benchmarks/bfcl/evaluator.go:385-395 | a map of parameters gives one argument per key; anything else gives none |
| BfclParsing.ParseGroundTruthItem | pkg/evaluation/benchmarks/bfcl/evaluator.go:353-409 | a list, a map with a `name`, any other map and a Python-style string each give the calls the item function describes |
| BfclParsing.ParseElements | pkg/evaluation/benchmarks/bfcl/evaluator.go:359-365 | the loop over a list's elements appends each element's calls in order |
| BfclParsing.ParseSpecCalls | pkg/evaluation/benchmarks/bfcl/evaluator.go:380-397 | the loop over a `{func: params}` map's keys appends one call per key, in the order visited |
| BfclParsing.ParseGroundTruth | pkg/evaluation/benchmarks/bfcl/evaluator.go:318-350 | the loops compute the ground-truth parse, including its errors and its recursion into strings |
| BfclParsing.SpecCallsConcat | pkg/evaluation/benchmarks/bfcl/evaluator.go:380-397 | visiting keys in two runs gives the calls of both runs, in order |
| BfclParsing.SpecCallsOnePerKey | pkg/evaluation/benchmarks/bfcl/evaluator.go:380-397 | the map form gives one call per visited key, in visiting order, named by the key |
| BfclParsing.SpecCallsPermutation | pkg/evaluation/benchmarks/bfcl/evaluator.go:380-397 | the calls depend on the key order only through the multiset of keys |
| BfclParsing.MapFormOrderIrrelevant | pkg/evaluation/benchmarks/bfcl/evaluator.go:380-397 | whatever order Go's map iteration takes, the map form gives the same calls up to order, one per key |
| BfclParsing.ItemCallsOrderIrrelevant | pkg/evaluation/benchmarks/bfcl/evaluator.go:353-409 | an item's calls do not depend on the key order beyond their order |
| BfclParsing.GroundTruthOrderIrrelevant | pkg/evaluation/benchmarks/bfcl/evaluator.go:318-350 | whether the ground truth parses, and its calls up to order, do not depend on the key order |
| BfclParsing.ListIsConcatenation | pkg/evaluation/benchmarks/bfcl/evaluator.go:357-365 | a nested list gives the concatenation of its elements' calls, in order |
| BfclParsing.ItemShapes | pkg/evaluation/benchmarks/bfcl/evaluator.go:353-409 | a map with a string `name` gives that call with map-valued `arguments` only; any other map gives one call per key; a string that is not `name(...)` and any other scalar give nothing |
| BfclMatch.EqualFoldSymmetric | pkg/evaluation/benchmarks/bfcl/evaluator.go:486-489 | case-insensitive equality is symmetric |
| BfclMatch.ValuesEqualReflexiveSymmetric | pkg/evaluation/benchmarks/bfcl/evaluator.go:476-499 | every value equals itself, and the comparison does not depend on which side is the prediction |
| BfclMatch.ValuesEqualNumeric | pkg/evaluation/benchmarks/bfcl/evaluator.go:476-519 | a number equals a string that scans to it; values that are neither are equal only by their `%v` texts, exactly or ignoring case |
| BfclMatch.MatchedParams | pkg/evaluation/benchmarks/bfcl/evaluator.go:462-470 | the matched parameters are among the expected ones |
| BfclMatch.CallScoreMeaning | pkg/evaluation/benchmarks/bfcl/evaluator.go:452-473 | the call score lies in [0, 1] and is 1 exactly when the names agree and every expected parameter is present with an equal value |
| BfclMatch.ExtraArgumentsIgnored | pkg/evaluation/benchmarks/bfcl/evaluator.go:462-472 | arguments the expected call does not name do not change the score |
| BfclMatch.CompareFunctionCall | pkg/evaluation/benchmarks/bfcl/evaluator.go:452-473 | the loop, in any key order, computes the call score |
| BfclMatch.CountMatchedParams | pkg/evaluation/benchmarks/bfcl/evaluator.go:463-470 | the counting loop counts exactly the matched parameters, whatever the order of the map |
| BfclMatch.BestScoreIsMaximum | pkg/evaluation/benchmarks/bfcl/evaluator.go:294-300 | the best score is the largest call score over the predictions (0 without any), within [0, 1] |
| BfclMatch.BestScoreSameCalls | pkg/evaluation/benchmarks/bfcl/evaluator.go:294-300 | the best score depends only on which calls were predicted, not their order or repetition |
| BfclMatch.MatchedCount | pkg/evaluation/benchmarks/bfcl/evaluator.go:290-305 | the matched count never exceeds the number of expected calls |
| BfclMatch.EvaluateMatch | pkg/evaluation/benchmarks/bfcl/evaluator.go:266-315 | the loops compute the verdict: parse, the failure cases, the best score per expected call, the count and the mean |
| BfclMatch.BestCallScore | pkg/evaluation/benchmarks/bfcl/evaluator.go:294-300 | the inner loop returns the best score against one expected call |
| BfclMatch.VerdictFailures | pkg/evaluation/benchmarks/bfcl/evaluator.go:269-287 | an unparseable ground truth, no prediction or no expected call fails with score 0, and a parse error is recorded |
| BfclMatch.FullyMatchedMeaning | pkg/evaluation/benchmarks/bfcl/evaluator.go:301-303 | an expected call counts as matched exactly when some prediction scores 1 against it |
| BfclMatch.VerdictSuccess | pkg/evaluation/benchmarks/bfcl/evaluator.go:289-314 | success holds exactly when every expected call is matched with score 1 by some prediction, and then the score is 1; the matched count is at most the expected count |
| BfclMatch.VerdictScoreBounds | pkg/evaluation/benchmarks/bfcl/evaluator.go:307 | the score, the mean best score, lies in [0, 1] |
| BfclMatch.MatchedCountPermutation | pkg/evaluation/benchmarks/bfcl/evaluator.go:290-305 | the matched count does not depend on the order of the predictions or of the expected calls |
| BfclMatch.ScoreTotalPermutation | pkg/evaluation/benchmarks/bfcl/evaluator.go:290-305 | the score total does not depend on the order of the predictions or of the expected calls |
| BfclMatch.VerdictPermutationInvariant | pkg/evaluation/benchmarks/bfcl/evaluator.go:266-315 | reordering the predictions or the expected calls changes neither the success, the score nor the counts |
| BfclMatch.OnePredictionMatchesTwo | pkg/evaluation/benchmarks/bfcl/evaluator.go:293-308 | one predicted call satisfies two identical expected calls: success, score 1, matched count 2 |
| BfclMetrics.Compute | pkg/evaluation/benchmarks/bfcl/metrics.go:16-86 | the one-pass accumulation computes the summary |
| BfclMetrics.EmptyResults | pkg/evaluation/benchmarks/bfcl/metrics.go:17-23 | no results give every metric 0 and no extra counters |
| BfclMetrics.SummaryProperties | pkg/evaluation/benchmarks/bfcl/metrics.go:16-86 | accuracy is the share of successes in [0, 1]; the average score is the mean; precision and recall are correct calls over predicted and expected calls, 0 when there are none; the extra counters are the totals |
| BfclMetrics.F1Meaning | pkg/evaluation/benchmarks/bfcl/metrics.go:72-75 | F1 is 0 exactly when precision plus recall is 0, and lies between the two otherwise |
| BfclMetrics.RecallAtMostOne | pkg/evaluation/benchmarks/bfcl/metrics.go:64-75 | recall is at most 1 when no result matched more than it expected, and F1 then lies in [0, 1] whenever precision does |
| BfclMetrics.SummaryPermutationInvariant | pkg/evaluation/benchmarks/bfcl/metrics.go:16-86 | the summary does not depend on the order of the results |
| BfclMetrics.PrecisionCanExceedOne | pkg/evaluation/benchmarks/bfcl/metrics.go:51-66 | one predicted call matching two expected calls gives precision 2 |
| BfclMetrics.SummaryFixture | pkg/evaluation/benchmarks/bfcl/metrics_test.go:25-60 | the summary test: accuracy 0.5, average score 0.75, three correct calls of three predicted and four expected |
| BfclMetrics.CategoryOf | pkg/evaluation/benchmarks/bfcl/metrics.go:93-96 | the empty category is counted as "default" |
| BfclMetrics.RunningSnoc | pkg/evaluation/benchmarks/bfcl/metrics.go:92-110 | one more result updates only its own category's row |
| BfclMetrics.FinishRow | pkg/evaluation/benchmarks/bfcl/metrics.go:113-118 | dividing a counted row gives the finished row |
| BfclMetrics.ComputeCategoryMetrics | pkg/evaluation/benchmarks/bfcl/metrics.go:89-121 | the two passes compute the category table with accuracies and mean scores |
| BfclMetrics.ComputeCategoryAccuracy | pkg/evaluation/benchmarks/bfcl/evaluator.go:522-551 | the evaluator's two passes compute the category table with accuracies only |
| BfclMetrics.CountCategories | pkg/evaluation/benchmarks/bfcl/metrics.go:92-110 | the counting pass gives each present category its running row |
| BfclMetrics.FillAverages | pkg/evaluation/benchmarks/bfcl/metrics.go:113-118 | the second pass finishes every row and keeps the keys |
| BfclMetrics.CategoryTotals | pkg/evaluation/benchmarks/bfcl/metrics.go:89-121 | each row's total is its category's result count and positive; successes never exceed it; accuracy lies in [0, 1]; totals add up to the number of results; no row is keyed "" |
| BfclMetrics.AccuracyTableAgrees | pkg/evaluation/benchmarks/bfcl/evaluator.go:522-551 | the evaluator's table agrees with the calculator's on categories, totals, successes and accuracies, with every mean score 0 |
| BfclMetrics.CategoryFixture | pkg/evaluation/benchmarks/bfcl/metrics_test.go:62-95 | "simple" has two results, one success, accuracy 0.5 and mean score 0.75; "multiple" has accuracy 1 |
| BfclMetrics.CategoryFixtureKeys | pkg/evaluation/benchmarks/bfcl/metrics_test.go:62-95 | the test's table has exactly the categories "simple" and "multiple" |
| BfclEvaluator.ModeOrDefault | pkg/evaluation/benchmarks/bfcl/evaluator.go:39-48 | an empty mode becomes `ast`; any other mode is kept |
| BfclEvaluator.EvaluateSample | pkg/evaluation/benchmarks/bfcl/evaluator.go:137-186 | the result of one sample is `SampleOutcome`, characterised below |
| BfclEvaluator.SampleOutcomeMeaning | pkg/evaluation/benchmarks/bfcl/evaluator.go:137-186 | the result keeps the sample's ID and category; an agent error, a failed extraction or a missing ground truth leaves an error, no success and score 0; otherwise the score lies in [0, 1] and success means every expected call is matched |
| BfclEvaluator.SuccessMeansAllExpectedMatched | pkg/evaluation/benchmarks/bfcl/evaluator.go:160-183 | a successful sample's extracted calls match every call of its parsed ground truth with score 1 |
| BfclEvaluator.OutcomeOrderIrrelevant | pkg/evaluation/benchmarks/bfcl/evaluator.go:137-186 | the result does not depend on Go's map iteration order over the ground truth |
| BfclEvaluator.PrecisionAboveOne | pkg/evaluation/benchmarks/bfcl/metrics.go:51-66 | end to end, a reply with one call matching two identical expected calls gives precision 2 |
| BfclEvaluator.Outcomes | pkg/evaluation/benchmarks/bfcl/evaluator.go:80-119 | one result per evaluated sample |
| BfclEvaluator.OutcomesScored | pkg/evaluation/benchmarks/bfcl/evaluator.go:80-119 | every covered sample is scored |
| BfclEvaluator.OutcomesPrefix | pkg/evaluation/benchmarks/bfcl/evaluator.go:80-119 | a cancelled run's results are a prefix of the full run's |
| BfclEvaluator.OutcomesRecallAtMostOne | pkg/evaluation/benchmarks/bfcl/evaluator.go:80-131 | every result's matched count is within its expected count, so the summary's recall is at most 1 |
| BfclEvaluator.EvaluateNext | pkg/evaluation/benchmarks/bfcl/evaluator.go:87-108 | one loop step gives the result expected for sample `i` |
| BfclEvaluator.Evaluate | pkg/evaluation/benchmarks/bfcl/evaluator.go:55-134 | the dataset's samples, ground truth and loaded flag end as its `Load` leaves them; there is no result exactly when that load fails, with its wrapped error; otherwise the first `total` samples, with their ground truth, are scored in order; cancellation returns the partial result; a complete run adds accuracy, the category table and the summary |
| BfclEvaluator.RunSamples | pkg/evaluation/benchmarks/bfcl/evaluator.go:79-119 | the loop appends the expected results in order until done or cancelled, counting successes and reporting progress |
| BfclEvaluator.Finish | pkg/evaluation/benchmarks/bfcl/evaluator.go:121-133 | accuracy over the samples, the evaluator's category table and the summary |
| BfclDataset.BuildSample | pkg/evaluation/benchmarks/bfcl/dataset.go:137-178 | building a sample step by step gives the parsed item |
| BfclDataset.IdPrecedence | pkg/evaluation/benchmarks/bfcl/dataset.go:138-147 | the ID is a string `id`, otherwise `{category}_{idx}`; the category is the dataset's |
| BfclDataset.InputPath | pkg/evaluation/benchmarks/bfcl/dataset.go:149-159 | the input is `question[0][0].content` when every step has the expected shape |
| BfclDataset.ToolsOnePerObject | pkg/evaluation/benchmarks/bfcl/dataset.go:161-175 | a list of objects gives one tool per entry, in order, with its name and description ("" when missing) |
| BfclDataset.ToolsFromObjects | pkg/evaluation/benchmarks/bfcl/dataset.go:161-175 | entries that are not objects give no tool, so there are never more tools than entries |
| BfclDataset.DataRowsIndexing | pkg/evaluation/benchmarks/bfcl/dataset.go:110-133 | a well-formed file loads without error and its k-th decoded line is sample k, parsed with index k; blank lines do not count |
| BfclDataset.FirstMalformedAborts | pkg/evaluation/benchmarks/bfcl/dataset.go:123-126 | the first malformed line aborts with its line number (decoded lines before it plus one); earlier samples stay and nothing after it is read |
| BfclDataset.GroundTruthAbortsAnyMap | pkg/evaluation/benchmarks/bfcl/dataset.go:205-208 | the ground-truth loader's error does not depend on what it has stored |
| BfclDataset.GroundTruthNoError | pkg/evaluation/benchmarks/bfcl/dataset.go:192-222 | a well-formed ground-truth file loads without error |
| BfclDataset.GroundTruthKeysOrigin | pkg/evaluation/benchmarks/bfcl/dataset.go:210-218 | every stored key was already there or is the ID of a decoded line with a `ground_truth` entry |
| BfclDataset.GroundTruthLastWins | pkg/evaluation/benchmarks/bfcl/dataset.go:210-219 | a line's ground truth is stored under its ID, `{category}_{k}` without a string `id`, unless a later line has the same ID |
| BfclDataset.UntouchedKeyKept | pkg/evaluation/benchmarks/bfcl/dataset.go:216-218 | a key no later line writes keeps its value |
| BfclDataset.SharedIdScheme | pkg/evaluation/benchmarks/bfcl/dataset.go:137-219 | samples and ground truth use the same default IDs, so the k-th sample finds the k-th ground truth |
| BfclDataset.Dataset.constructor | pkg/evaluation/benchmarks/bfcl/dataset.go:62-69 | a new dataset has no samples, no ground truth and is not loaded |
| BfclDataset.Dataset.LoadDataFile | pkg/evaluation/benchmarks/bfcl/dataset.go:99-134 | the loop appends the samples of the decoded lines up to the first malformed one, whose error it returns |
| BfclDataset.Dataset.LoadGroundTruth | pkg/evaluation/benchmarks/bfcl/dataset.go:181-223 | a file that cannot be opened is no error; otherwise the loop stores each line's ground truth under its ID up to the first malformed line |
| BfclDataset.Dataset.Load | pkg/evaluation/benchmarks/bfcl/dataset.go:72-96 | a loaded dataset is left alone; a missing directory is an error; the data file appends its rows' samples and fails with "加载数据文件失败: " and its line or read error; then the ground-truth rows are stored over the old map and fail with "加载 ground truth 失败: " and their error; loaded exactly when neither fails |
| BfclDataset.Dataset.Get | pkg/evaluation/benchmarks/bfcl/dataset.go:231-243 | an error outside `[0, Len())`; otherwise the stored sample with its ground truth attached when one is stored under its ID |
| BfclDataset.Dataset.GetGroundTruth | pkg/evaluation/benchmarks/bfcl/dataset.go:264-267 | the ground truth stored under an ID, if any |
| BfclDataset.Dataset.Name | pkg/evaluation/benchmarks/bfcl/dataset.go:259-261 | `BFCL_{category}` |
| BfclDataset.Dataset.GetAttachesGroundTruth | pkg/evaluation/benchmarks/bfcl/dataset.go:236-242 | `Get` agrees with `GetGroundTruth`; only the expected value can differ from the stored sample |
| BfclDataset.LoadedSamplesHaveNoExpected | pkg/evaluation/benchmarks/bfcl/dataset.go:137-178 | loaded samples carry no expected value; it comes only from `Get` |
| BfclExport.CallsOutput | pkg/evaluation/benchmarks/bfcl/export.go:87-96 | one output object per call, in order |
| BfclExport.CallsOf | pkg/evaluation/benchmarks/bfcl/export.go:87-96 | reading the output objects back gives one call per object |
| BfclExport.ConvertCallsToOutput | pkg/evaluation/benchmarks/bfcl/export.go:87-96 | filling the slice by index gives the output list |
| BfclExport.CallsOutputRoundTrip | pkg/evaluation/benchmarks/bfcl/export.go:87-96 | the output lists lose nothing: reading them back gives the calls |
| BfclExport.FormatResult | pkg/evaluation/benchmarks/bfcl/export.go:72-84 | `formatResult` computes the formatted result |
| BfclExport.FormattedMeaning | pkg/evaluation/benchmarks/bfcl/export.go:72-84 | a call list is exported as the same calls in order; otherwise a non-empty response wins; the raw prediction only when there is no response |
| BfclExport.BuildInferenceLog | pkg/evaluation/benchmarks/bfcl/export.go:99-119 | appending to an empty log computes the inference log |
| BfclExport.InferenceLogShape | pkg/evaluation/benchmarks/bfcl/export.go:99-119 | at most two messages: the user's first, exactly when the input is a non-empty string; the assistant's last, exactly when there is a response |
| BfclExport.Entries | pkg/evaluation/benchmarks/bfcl/export.go:53-66 | one entry per result, in order |
| BfclExport.Export | pkg/evaluation/benchmarks/bfcl/export.go:51-68 | all entries are written in order, or those before the failing one and then the write error |
| BfclExport.EntriesMeaning | pkg/evaluation/benchmarks/bfcl/export.go:53-62 | entry k belongs to result k and carries a log exactly when logs are on and the agent responded; the log then ends with the response |
| BfclExport.EntriesConcat | pkg/evaluation/benchmarks/bfcl/export.go:53-66 | exporting two lists one after the other gives the entries of the joined list |
| DatagenDataset.ParseItemPrecedence | pkg/evaluation/benchmarks/datagen/dataset.go:89-124 | the ID is a string `id`, else `datagen_{idx}`; the input is `question`, else `content`, else `problem`, else ""; the category is `category`, else `difficulty`; the expected answer is `answer`, else `solution`, else absent; only strings count |
| DatagenDataset.DefaultIdsDistinct | pkg/evaluation/benchmarks/datagen/dataset.go:91 | different indices give different default IDs |
| DatagenDataset.Parsed | pkg/evaluation/benchmarks/datagen/dataset.go:61-82 | one sample per decoded item |
| DatagenDataset.ParsedSnoc | pkg/evaluation/benchmarks/datagen/dataset.go:79-81 | one more decoded item is parsed with the next index |
| DatagenDataset.ItemsConcat | pkg/evaluation/benchmarks/datagen/dataset.go:62-82 | the decoded items of a file split in two are those of each part |
| DatagenDataset.ItemsSnoc | pkg/evaluation/benchmarks/datagen/dataset.go:69-81 | one more line of the file adds its object to the decoded items when it decodes, and nothing when it is blank or malformed |
| DatagenDataset.SkippedLineInvisible | pkg/evaluation/benchmarks/datagen/dataset.go:69-77 | a blank or malformed line anywhere changes neither the number, the IDs nor the indices of the samples |
| DatagenDataset.Dataset.constructor | pkg/evaluation/benchmarks/datagen/dataset.go:35-40 | a new dataset has its path, no samples and is not loaded |
| DatagenDataset.Dataset.Load | pkg/evaluation/benchmarks/datagen/dataset.go:43-86 | a loaded dataset is left alone; a missing or unopenable file is an error; otherwise decoded lines are parsed and appended until cancellation (samples kept, not loaded) or the end (loaded, with the scanner's error) |
| DatagenDataset.Dataset.Get | pkg/evaluation/benchmarks/datagen/dataset.go:132-137 | a sample exactly for an index in `[0, Len())`, the stored one; otherwise "索引越界: " and the index |
| DatagenDataset.Dataset.GetSamples | pkg/evaluation/benchmarks/datagen/dataset.go:157-159 | the samples in load order, each the one `Get` returns at its index |
| DatagenDataset.LoadedSampleAt | pkg/evaluation/benchmarks/datagen/dataset.go:61-82 | sample k comes from the k-th decoded line, with default ID `datagen_k` |
| DatagenJudge.ParseJudgeResponse | pkg/evaluation/benchmarks/datagen/llm_judge.go:231-274 | the default score overwritten field by field from the decoded object, then the total recomputed |
| DatagenJudge.OverrideFields | pkg/evaluation/benchmarks/datagen/llm_judge.go:254-268 | starting from the default of 3 in each dimension, the result holds each dimension found as a number under its key and the comments found as a string, the defaults elsewhere |
| DatagenJudge.NoJsonGivesDefaults | pkg/evaluation/benchmarks/datagen/llm_judge.go:232-237 | a reply without a JSON object scores 3 in every dimension and in total, with no comments |
| DatagenJudge.FirstBlockOnly | pkg/evaluation/benchmarks/datagen/llm_judge.go:240-249 | only the first fenced block is read; when it does not decode, the defaults stand, whatever the rest of the reply |
| DatagenJudge.ScoreFromFieldsMeaning | pkg/evaluation/benchmarks/datagen/llm_judge.go:252-271 | each dimension is the number under its own key or the default; values are not clamped; comments are the string under `comments`; the total is the mean |
| DatagenJudge.OtherFieldsIgnored | pkg/evaluation/benchmarks/datagen/llm_judge.go:252-269 | any other key, or a non-number under a dimension's key, changes nothing |
| DatagenJudge.NotClamped | pkg/evaluation/benchmarks/datagen/llm_judge.go:254-271 | a correctness of 9 with the others missing gives a total of 4.5 |
| DatagenJudge.EvaluateSample | pkg/evaluation/benchmarks/datagen/llm_judge.go:137-185 | the prompt for the sample and its reference is sent to the judge and the outcome is scored |
| DatagenJudge.JudgeOutcomeMeaning | pkg/evaluation/benchmarks/datagen/llm_judge.go:137-185 | success exactly when the mean of the four dimensions is at least 3, the score being that mean; a reply without JSON passes with 3; a failed call leaves the error, no success and score 0 |
| DatagenJudge.ExcellentPasses | pkg/evaluation/benchmarks/datagen/llm_judge.go:173-175 | a sample scoring at least 4 always passes |
| DatagenJudge.BuildJudgePrompt | pkg/evaluation/benchmarks/datagen/llm_judge.go:207-228 | the question, then each optional piece appended, renders the prompt's pieces |
| DatagenJudge.SampleSection | pkg/evaluation/benchmarks/datagen/llm_judge.go:208-216 | the question, the sample's answer line and its category line |
| DatagenJudge.ReferenceSection | pkg/evaluation/benchmarks/datagen/llm_judge.go:218-223 | the reference's question and answer line, when a reference is given |
| DatagenJudge.PromptMeaning | pkg/evaluation/benchmarks/datagen/llm_judge.go:207-228 | the prompt opens with the question and closes with the request to rate; it has an answer line exactly when the answer is a non-empty string, a category line exactly when the category is set, and a reference section exactly when a reference is given |
| DatagenJudge.ReferenceFor | pkg/evaluation/benchmarks/datagen/llm_judge.go:97-102 | sample i is paired with reference i exactly when there is one |
| DatagenJudge.ComputeMetrics | pkg/evaluation/benchmarks/datagen/llm_judge.go:277-334 | the one-pass accumulation computes the judge summary |
| DatagenJudge.JudgeSummaryMeaning | pkg/evaluation/benchmarks/datagen/llm_judge.go:277-334 | no results give empty maps and zero rates; otherwise accuracy is the pass rate, both rates lie in [0, 1], the dimension map has exactly the four dimensions, and the counters count passing and excellent results |
| DatagenJudge.MissingDetailDilutes | pkg/evaluation/benchmarks/datagen/llm_judge.go:292-326 | a result without a dimension's detail adds nothing to that dimension's total but still counts in the division: the average becomes the same total over n + 1 |
| DatagenJudge.ExcellentWithinPass | pkg/evaluation/benchmarks/datagen/llm_judge.go:309-320 | among judged results the excellent ones pass, so the excellent rate never exceeds the pass rate |
| DatagenJudge.Outcomes | pkg/evaluation/benchmarks/datagen/llm_judge.go:77-123 | one result per evaluated sample |
| DatagenJudge.OutcomeAt | pkg/evaluation/benchmarks/datagen/llm_judge.go:77-123 | result k is the score of sample k with reference k |
| DatagenJudge.OutcomesPrefix | pkg/evaluation/benchmarks/datagen/llm_judge.go:77-123 | a cancelled run's results are a prefix of the full run's |
| DatagenJudge.OutcomesScored | pkg/evaluation/benchmarks/datagen/llm_judge.go:77-123 | every covered sample is scored |
| DatagenJudge.OutcomesExcellentPass | pkg/evaluation/benchmarks/datagen/llm_judge.go:77-131 | an evaluation's summary never rates more excellent results than passing ones |
| DatagenJudge.EvaluateNext | pkg/evaluation/benchmarks/datagen/llm_judge.go:84-112 | one loop step gives the result expected for sample i |
| DatagenJudge.Evaluate | pkg/evaluation/benchmarks/datagen/llm_judge.go:53-134 | the dataset's samples and loaded flag end as its `Load` leaves them; there is no result exactly when that load fails, with its wrapped error; otherwise the first `total` samples are judged in order with their references, passes counted, progress reported; cancellation returns the partial result; a complete run adds accuracy and the summary |
| DatagenJudge.RunSamples | pkg/evaluation/benchmarks/datagen/llm_judge.go:76-123 | the loop appends the expected results in order until done or cancelled, counting passes and reporting progress |
| Reports.SelectFailures | pkg/evaluation/benchmarks/gaia/export.go:129-157 | collecting the failures and taking at most ten computes the shown failures |
| Reports.FailuresConcat | pkg/evaluation/benchmarks/gaia/export.go:130-135 | the failures of joined lists are the joined failures, so they keep the results' order |
| Reports.FailuresMeaning | pkg/evaluation/benchmarks/bfcl/export.go:177-182 | the failures are exactly the unsuccessful results, as many as results minus successes |
| Reports.ShownMeaning | pkg/evaluation/benchmarks/bfcl/export.go:184-190 | at most ten failures are shown, in order from the first; all when there are at most ten; none exactly when every result succeeded |
| Reports.LaterResultsHidden | pkg/evaluation/benchmarks/gaia/export.go:137-143 | results added after ten failures change nothing in the report |
| ImageErrors.Chain | pkg/image/errors.go:72-83 | the unwrap chain starts at the error itself |
| ImageErrors.IsMeaning | pkg/image/errors.go:41-59 | `errors.Is` for a sentinel holds exactly when the sentinel is in the unwrap chain, and exactly when it is the chain's end |
| ImageErrors.ClassificationMeaning | pkg/image/errors.go:41-59 | nil is neither retryable nor fatal; an error is retryable exactly when a quota, timeout or unavailable-provider sentinel is in its chain, fatal exactly when an invalid-key, invalid-prompt or unsupported-model one is |
| ImageErrors.RetryableNotFatal | pkg/image/errors.go:41-59 | no error is both retryable and fatal |
| ImageErrors.WrapErrorMeaning | pkg/image/errors.go:61-83 | nil stays nil; a wrapped error's text is the context, ": " and the inner text, it unwraps to the inner error, and it is retryable or fatal exactly when the inner one is |
| ImageErrors.OpaqueUnclassified | pkg/image/errors.go:41-59 | an error outside the package is neither retryable nor fatal, whatever its text |
| ImageErrors.OtherSentinelsUnclassified | pkg/image/errors.go:6-59 | the five sentinels outside both lists, however deeply wrapped, are neither retryable nor fatal |
| ImageProvider.Wrap64 | pkg/image/provider.go:48-50 | the result is a signed 64-bit value, equal to the input when that is one |
| ImageProvider.Wrap32 | pkg/image/provider.go:164-169 | `rune(x)` is a signed 32-bit value, equal to the input when that is one |
| ImageProvider.Value | pkg/image/provider.go:186-205 | the accumulated value stays within the signed 64-bit range |
| ImageProvider.FormatSize | pkg/image/provider.go:164-169 | for dimensions in 0..9999 the string is nine characters: four digits whose value is the width, `x`, four digits whose value is the height |
| ImageProvider.Pad4Meaning | pkg/image/provider.go:165-168 | a dimension in 0..9999 is written as four digits whose decimal value is the dimension |
| ImageProvider.FirstNonDigit | pkg/image/provider.go:186-195 | the width loop stops at the first non-digit, all before it being digits |
| ImageProvider.ParsedSizeMeaning | pkg/image/provider.go:182-212 | a string is accepted exactly when it is digits, `x` or `X`, digits, with both values non-zero, and the size read is those two values |
| ImageProvider.IntCell.constructor | pkg/image/provider.go:173 | a new cell holds its initial value |
| ImageProvider.ParseSizeInto | pkg/image/provider.go:182-212 | success exactly when the string is accepted; a failure returns `ErrInvalidSize` and leaves both outputs unchanged; success writes the width and then the height read |
| ImageProvider.ReadWidth | pkg/image/provider.go:184-198 | the first loop stops just after the first separator, having read the digits before it as the width; a stray character or a missing separator means the string is rejected |
| ImageProvider.ReadHeight | pkg/image/provider.go:199-205 | the second loop succeeds exactly when everything after the separator is a digit, and then reads their value as the height |
| ImageProvider.RejectedAfter | pkg/image/provider.go:199-205 | a character that is not a digit anywhere after the separator makes the size unparsable |
| ImageProvider.AcceptedWith | pkg/image/provider.go:185-210 | digits, a separator and digits parse to the two values read, unless either is zero |
| ImageProvider.ParseSize | pkg/image/provider.go:172-179 | the size read with no error, or the zero size with `ErrInvalidSize` |
| ImageProvider.SizeRoundTrip | pkg/image/provider.go:164-212 | every size with both dimensions in 1..9999 reads back from its string |
| ImageProvider.ZeroSizeRejected | pkg/image/provider.go:206-208 | a size with a zero dimension does not read back from its string |
| ImageProvider.LeadingZerosAccepted | pkg/image/provider.go:186-205 | extra leading zeros on either dimension and either separator still read back as the same size |
| ImageProvider.ValueExact | pkg/image/provider.go:188 | up to 18 digits never wrap: the value is the decimal number, below 10 to the number of digits |
| ImageProvider.PixelsExact | pkg/image/provider.go:48-50 | for dimensions from 0 up to 2^31 the pixel count is the exact, non-negative product |
| ImageProvider.ParsedSizePositive | pkg/image/provider.go:206-211 | an accepted size written with at most 18 digits per dimension has a positive width and height |
| ImageFactory.Lower | pkg/image/factory.go:90 | lower-casing keeps the length, character by character |
| ImageFactory.AliasTable | pkg/image/factory.go:89-104 | every alias of a supported provider parses to that provider, so no name is the alias of two providers |
| ImageFactory.OpenAIAliases | pkg/image/factory.go:91-92 | `openai`, `dall-e`, `dalle` and `gpt-image` parse to OpenAI |
| ImageFactory.StabilityAliases | pkg/image/factory.go:93-94 | `stability`, `stable-diffusion` and `sd` parse to Stability |
| ImageFactory.DashScopeAliases | pkg/image/factory.go:95-96 | `dashscope`, `aliyun`, `wanx` and `tongyi` parse to DashScope |
| ImageFactory.ErnieAliases | pkg/image/factory.go:97-98 | `ernie`, `baidu`, `wenxin` and `yige` parse to ERNIE |
| ImageFactory.HunyuanAliases | pkg/image/factory.go:99-100 | `hunyuan` and `tencent` parse to Hunyuan |
| ImageFactory.ParseProviderTypeMeaning | pkg/image/factory.go:89-104 | a parse succeeds exactly when the lower-cased name is an alias of the type given, which is supported; a failure gives the empty type and "unknown provider: " with the name as given |
| ImageFactory.CaseInsensitive | pkg/image/factory.go:90 | names equal up to case parse to the same type and both succeed or both fail; a name parses as its lower case does |
| ImageFactory.ParseExamples | tests/unit/image/factory_test.go:55-56 | the mixed-case names "OpenAI" and "DALL-E" parse to the OpenAI provider without error |
| ImageFactory.ParseAliasExamples | tests/unit/image/factory_test.go:60-66 | the aliases "sd", "tongyi", "baidu" and "tencent" parse to Stability, DashScope, ERNIE and Hunyuan without error |
| ImageFactory.ParseUnknownExamples | tests/unit/image/factory_test.go:67-68 | "unknown" and the empty name give the empty type and an error naming the input |
| ImageFactory.SupportedProvidersMeaning | pkg/image/factory.go:107-115 | five distinct providers, each parsed back from its own name, and every successful parse gives one of them |
| ImageFactory.NewImageProviderMeaning | pkg/image/factory.go:26-41 | the constructor is reached exactly for the five supported types, as written, and receives the options unchanged; any other type, `OpenAI` among them, is "unknown provider type: " and the type |
| ImageFactory.AppendIfRanked | pkg/image/factory.go:67-83 | a conditional append of an option of a later kind keeps the kinds in order and adds that option alone |
| ImageFactory.ConfigOptionsSteps | pkg/image/factory.go:63-83 | the option list is the API key followed by the five conditional appends in the source's order |
| ImageFactory.ConfigOptionsOrder | pkg/image/factory.go:63-83 | the API key comes first, even when empty, and every other kind appears at most once, in the fixed order |
| ImageFactory.ConfigOptionsMembers | pkg/image/factory.go:63-83 | the options are exactly the API key and each setting that is non-empty or positive, carrying that setting, the timeout in nanoseconds |
| ImageFactory.OptionalSettings | pkg/image/factory.go:67-83 | each optional setting appears exactly when it is set |
| ImageFactory.FromConfigExample | tests/unit/image/factory_test.go:111-132 | an OpenAI configuration with a key, a model, a 30-second timeout and 3 retries reaches the OpenAI constructor with exactly those four options, in order |
| ImageFactory.FromConfigTypeExact | pkg/image/factory.go:62-86 | the configuration's type is not lower-cased: the factory succeeds exactly for the five supported names as written |

## Left out

- File and directory I/O is taken as already-read input: opening, scanning, `os.Stat`, `MkdirAll` and `Create`, and their errors. All Markdown and JSON report text is left out. Only the entries, tables and selections the reports contain are modelled.
- `pkg/evaluation/benchmarks/datagen/export.go` is only file writing and report text, so no part of it is modelled.
- Time is left out: `time.Now`, durations, per-sample `context.WithTimeout`, and the timestamps in results.
  - Cancellation is modelled as "the context is found cancelled before sample k" in the evaluation loops, and before line k in the datagen loader.
  - The cancelled context's error is modelled as "context canceled". For a caller's context whose deadline passed, Go's `ctx.Err()` is "context deadline exceeded" instead; deadlines are not modelled.
- The per-line context checks of the BFCL loaders (`pkg/evaluation/benchmarks/bfcl/dataset.go:112-115`, `:194-197`) and the GAIA loaders (`pkg/evaluation/benchmarks/gaia/dataset.go:111-114`, `:155-158`) are not modelled. A GAIA load cancelled part way keeps the samples read so far and marks the dataset loaded when there are any; the model loads every line.
- Concurrency is left out: `Iterator()` goroutines and channels.
- The agent, the judge LLM and the image providers' constructors (`NewOpenAI` and the others) are collaborators.
  - Their results, or the fact that they were called, are inputs.
  - So the constructors' own errors, such as a missing API key, are not modelled.
- `encoding/json`, `fmt.Sprintf("%v")` and `fmt.Sscanf("%f")` are parameters with no interpretation, as described above.
  - Regular expressions are hand-written scanners with the same matches.
- `unicode.ToLower` is exact for ASCII and Latin-1. The image factory also lowers the two other letters whose lower case is ASCII. Every other letter is taken as having no case.
- `unicode.IsPunct` is exact for ASCII, Latin-1, General Punctuation (U+2010-U+2027, U+2030-U+2043, U+2045-U+2051, U+2053-U+205E), the CJK Symbols and Punctuation block (U+3001-U+3003, U+3008-U+3011, U+3014-U+301F, U+3030, U+303D) and the fullwidth forms. Punctuation in other blocks, such as the Katakana middle dot U+30FB or the Armenian and Arabic marks, is taken as not punctuation.
- `GaiaAnswers.NormalizeAnswer`: trims only the punctuation `unicode.IsPunct` is modelled for above, and lowers only ASCII and Latin-1 letters. An answer that ends in punctuation from another block, or holds a Greek or Cyrillic capital, normalises differently in Go.
- `BfclMatch.ValuesEqualNumeric`: `strings.EqualFold` is modelled for ASCII and Latin-1 capitals, the long s, the Kelvin sign and Ÿ. Other Go case foldings, such as Greek, Cyrillic, micro sign and mu, ß and ẞ, or the Angstrom sign and Å, are taken as different.
- `BfclParsing.GroundTruthCalls`: a string that does not decode gives the fixed prefix "解析字符串 ground truth 失败: " only. The decoder's own message, which Go appends with `%w` (`pkg/evaluation/benchmarks/bfcl/evaluator.go:341`), is not modelled.
- Go strings are byte sequences; the model uses sequences of Unicode characters. On the ASCII inputs the scanners look for, both behave the same.
- `float64` rounding is not modelled; scores and rates are reals.
- `ImageSize.AspectRatio` returns a float, and is left out.
- `buildAgentInput` (BFCL) and the judge's system prompt are fixed prompt text around `json.MarshalIndent`, and are left out.
- `pkg/image/options.go` is left out beyond the six options the factory builds; it sets up an HTTP client.
- The `ImageProvider` interface and its generation calls are network code, and are left out.
- `pkg/evaluation/evaluation.go` holds interfaces only.
- The tool wrappers under `pkg/tools` and the win-rate evaluator are not part of this model.
- `examples/image/main.go` is a network demo, and is left out.
- The GAIA `level` field's `int` branch cannot be reached: a decoded JSON number is always a `float64`.
- In the evaluators, `Get` fails only for an index outside `[0, Len())`, and the loops never pass one. That error path is modelled in the datasets, not repeated in the loops.
- The order of category rows in the BFCL Markdown report follows Go's map iteration, and is not modelled.
- `GaiaDataset.Dataset.Load`: the error keeps only its fixed prefix. It leaves out the list of files tried and the last underlying error.
- `ImageErrors.IsMeaning`: `errors.Is` is modelled through this package's own wrapper only. `fmt.Errorf("%w")`, `errors.Join` and custom `Is` methods are not modelled.
- The datagen dataset's `Name`, `filepath.Base` of its path, is not modelled.
