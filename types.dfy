/** The records shared by all benchmarks: samples, per-sample results, metric
    tables and summaries. Go's `interface{}` fields become `Json` or a small
    sum type; the `Details` maps the aggregators read become typed optional
    fields; durations and timestamps are left out. */
module EvalTypes {
  import opened Wrappers
  import opened JsonValues
  import Tally

  /** A tool the agent may call (BFCL). A nil parameter schema is the empty map. */
  datatype ToolDefinition = ToolDefinition(name: string, description: string, parameters: map<string, Json>)

  /** One evaluation sample; `expected` is the ground truth, JNull when absent. */
  datatype Sample = Sample(
    id: string,
    input: string,
    expected: Json,
    category: string,
    level: int,
    metadata: map<string, Json>,
    tools: seq<ToolDefinition>,
    files: seq<string>)

  /** A function call (BFCL). A nil argument map is the empty map. */
  datatype FunctionCall = FunctionCall(name: string, arguments: map<string, Json>)

  /** The judge's scores for one generated problem. */
  datatype JudgeScore = JudgeScore(
    correctness: real,
    clarity: real,
    difficultyMatch: real,
    completeness: real,
    totalScore: real,
    comments: string)

  /** What `SampleResult.Predicted` holds in each benchmark: nothing (nil), the
      extracted answer (GAIA), the extracted calls (BFCL) or the judge's scores. */
  datatype Predicted = NoPrediction | Answer(text: string) | Calls(calls: seq<FunctionCall>) | Judged(score: JudgeScore)

  /** The entries of `SampleResult.Details` that the benchmarks write, each
      present (Some) exactly when the source stores that key. */
  datatype Details = Details(
    extractedAnswer: Option<string>,
    exactMatch: Option<bool>,
    partialMatch: Option<bool>,
    extractionError: Option<string>,
    gtParseError: Option<string>,
    expectedCalls: Option<seq<FunctionCall>>,
    predictedCalls: Option<seq<FunctionCall>>,
    reason: Option<string>,
    matchedCount: Option<nat>,
    expectedCount: Option<nat>,
    avgScore: Option<real>,
    judgeScore: Option<JudgeScore>,
    totalScore: Option<real>,
    correctness: Option<real>,
    clarity: Option<real>,
    difficultyMatch: Option<real>,
    completeness: Option<real>,
    comments: Option<string>,
    input: Option<string>)

  /** An empty (or nil) `Details` map. */
  const NoDetails := Details(None, None, None, None, None, None, None, None, None, None, None,
                             None, None, None, None, None, None, None, None)

  /** The outcome of one sample. `success` is the exact-match flag and
      `partialSuccess` the looser one. */
  datatype SampleResult = SampleResult(
    sampleId: string,
    predicted: Predicted,
    expected: Json,
    success: bool,
    partialSuccess: bool,
    score: real,
    category: string,
    level: int,
    error: string,
    details: Details,
    agentResponse: string)

  datatype CategoryMetrics = CategoryMetrics(category: string, total: nat, success: nat, accuracy: real, averageScore: real)

  datatype LevelMetrics = LevelMetrics(
    level: int,
    total: nat,
    exactMatches: nat,
    partialMatches: nat,
    exactMatchRate: real,
    partialMatchRate: real)

  /** `MetricsSummary.Extra`, typed per benchmark; `NoExtra` is the empty map. */
  datatype Extra =
    | NoExtra
    | GaiaExtra(totalSamples: nat, exactMatches: nat, partialMatches: nat,
                exactMatchRate: real, partialMatchRate: real, errorCount: nat)
    | BfclExtra(totalSamples: nat, successCount: nat, errorCount: nat, totalExpectedCalls: nat,
                totalPredictedCalls: nat, correctCalls: nat)
    | JudgeExtra(totalSamples: nat, successCount: nat, excellentCount: nat)

  datatype MetricsSummary = MetricsSummary(
    accuracy: real,
    precision: real,
    recall: real,
    f1Score: real,
    averageScore: real,
    passRate: real,
    excellentRate: real,
    winRate: real,
    lossRate: real,
    tieRate: real,
    dimensionScores: map<string, real>,
    extra: Extra)

  /** A summary with every field zero and empty maps. */
  const EmptySummary := MetricsSummary(0.0, 0.0, 0.0, 0.0, 0.0, 0.0, 0.0, 0.0, 0.0, 0.0, map[], NoExtra)

  datatype EvalResult = EvalResult(
    benchmarkName: string,
    agentName: string,
    totalSamples: nat,
    successCount: nat,
    overallAccuracy: real,
    categoryMetrics: map<string, CategoryMetrics>,
    levelMetrics: map<int, LevelMetrics>,
    detailedResults: seq<SampleResult>,
    metrics: Option<MetricsSummary>)

  /** The winner of a pairwise comparison: the source stores "A", "B" or "Tie"
      in a string; the model makes other values unrepresentable. */
  datatype Winner = WinnerA | WinnerB | Tie

  datatype ComparisonResult = ComparisonResult(
    problemAId: string,
    problemBId: string,
    winner: Winner,
    actualWinner: string,
    reason: string)

  /** What an agent run or an LLM call gave back: a response, or an error with
      its message. */
  datatype Outcome = Responded(response: string) | Failed(message: string)

  /** The string stored in `ComparisonResult.Winner`. */
  function WinnerLabel(w: Winner): (s: string)
    ensures s == "A" || s == "B" || s == "Tie"
  {
    match w
    case WinnerA => "A"
    case WinnerB => "B"
    case Tie => "Tie"
  }

  lemma WinnerLabelInjective(v: Winner, w: Winner)
    requires WinnerLabel(v) == WinnerLabel(w)
    ensures v == w
  {
  }

  /** A rate `count/total` as the metric tables store it, 0 for an empty group. */
  function Rate(count: nat, total: nat): real
  {
    if total > 0 then count as real / total as real else 0.0
  }

  /** The rate times the group size is the count; a count within the group
      gives a rate between 0 and 1. */
  lemma RateMeaning(count: nat, total: nat)
    ensures total > 0 ==> Rate(count, total) * total as real == count as real
    ensures total == 0 ==> Rate(count, total) == 0.0
    ensures count <= total ==> 0.0 <= Rate(count, total) <= 1.0
  {
  }

  /** The mean of the four judge dimensions, which is what `TotalScore` holds. */
  function DimensionMean(s: JudgeScore): (m: real)
    ensures 4.0 * m == s.correctness + s.clarity + s.difficultyMatch + s.completeness
  {
    (s.correctness + s.clarity + s.difficultyMatch + s.completeness) / 4.0
  }

  /** The mean lies between the smallest and the largest dimension. */
  lemma DimensionMeanBounds(s: JudgeScore, lo: real, hi: real)
    requires lo <= s.correctness <= hi && lo <= s.clarity <= hi
    requires lo <= s.difficultyMatch <= hi && lo <= s.completeness <= hi
    ensures lo <= DimensionMean(s) <= hi
  {
  }

  /** The judge-score fixture: 4, 5, 4 and 3 average to 4. */
  lemma DimensionMeanFixture()
    ensures DimensionMean(JudgeScore(4.0, 5.0, 4.0, 3.0, 4.0, "Good quality")) == 4.0
  {
  }

  // Selectors used with the counting functions of Tally.

  predicate IsSuccess(r: SampleResult) { r.success }
  predicate IsPartial(r: SampleResult) { r.partialSuccess }
  predicate HasError(r: SampleResult) { r.error != "" }
  function ScoreOf(r: SampleResult): real { r.score }

  /** The number of successful results. */
  function Successes(rs: seq<SampleResult>): (n: nat)
    ensures n <= |rs|
  {
    Tally.Count(rs, IsSuccess)
  }

  /** Appending a result adds one success exactly when it succeeded. */
  lemma SuccessesSnoc(rs: seq<SampleResult>, r: SampleResult)
    ensures Successes(rs + [r]) == Successes(rs) + (if r.success then 1 else 0)
  {
    assert (rs + [r])[..|rs|] == rs;
  }
}
