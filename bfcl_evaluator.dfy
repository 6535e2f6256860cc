/** The BFCL evaluator: scoring one sample from the agent's reply and the
    sample's ground truth, and the evaluation loop over the dataset with its
    counters, progress reports, cancellation, category table and summary.
    The agent is a collaborator: the model receives the outcome of its run
    for each sample. */
module BfclEvaluator {
  import opened Wrappers
  import opened Text
  import opened JsonValues
  import opened EvalTypes
  import opened Options
  import opened BfclParsing
  import opened BfclMatch
  import Tally
  import BfclMetrics
  import BfclDataset

  // ---------------------------------------------------------------------------
  // Evaluator identity

  /** `NewEvaluator`: the mode defaults to `ast`. */
  function ModeOrDefault(mode: string): (m: string)
    ensures m != ""
    ensures mode != "" ==> m == mode
  {
    if mode == "" then "ast" else mode
  }

  /** `Name`: `BFCL_{category}_{mode}`. */
  function EvaluatorName(category: string, mode: string): string
  {
    "BFCL_" + category + "_" + ModeOrDefault(mode)
  }

  // ---------------------------------------------------------------------------
  // One sample

  /** What scoring needs besides the sample: the library routines, the two
      decoders of the extraction, the key order of Go's map iteration and
      the dataset's ground truth by sample ID. */
  datatype Env = Env(lib: Stdlib, dec: CallDecoders, order: KeyOrder, groundTruth: map<string, Json>)

  /** Re-decoding a JSON string terminates. */
  ghost predicate ValidEnv(env: Env)
  {
    DecodeShrinksStrings(env.lib.decode)
  }

  const ExtractionFailed := "提取函数调用失败: "
  const GroundTruthMissing := "未找到 ground truth"

  /** The result `EvaluateSample` starts from: the sample's identity, its
      expected value and an empty details map. */
  function BlankResult(sample: Sample): SampleResult
  {
    SampleResult(sample.id, NoPrediction, sample.expected, false, false, 0.0,
                 sample.category, 0, "", NoDetails, "")
  }

  /** The result of one sample given the agent's outcome: the agent's error;
      or the extraction's error; or the missing ground truth; or the verdict
      of the extracted calls against the parsed ground truth, whose details
      fill the details map. */
  function SampleOutcome(env: Env, sample: Sample, outcome: Outcome): SampleResult
    requires ValidEnv(env)
  {
    match outcome
    case Failed(message) => BlankResult(sample).(error := message)
    case Responded(response) =>
      var answered := BlankResult(sample).(agentResponse := response);
      match ExtractedCalls(env.dec, response)
      case Err(e) => answered.(error := ExtractionFailed + e, details := NoDetails.(extractionError := Some(e)))
      case Ok(calls) => Scored(env, sample, answered.(predicted := Calls(calls)), calls)
  }

  /** The last step of a sample: the ground truth looked up by ID and matched. */
  function Scored(env: Env, sample: Sample, answered: SampleResult, calls: seq<FunctionCall>): SampleResult
    requires ValidEnv(env)
  {
    if sample.id !in env.groundTruth then answered.(error := GroundTruthMissing)
    else
      var v := MatchVerdict(env.lib, calls, GroundTruthCalls(env.lib, env.order, env.groundTruth[sample.id]));
      answered.(success := v.success, score := v.score, details := v.details)
  }

  /** `EvaluateSample`. */
  method EvaluateSample(env: Env, sample: Sample, outcome: Outcome) returns (result: SampleResult)
    requires ValidEnv(env)
    ensures result == SampleOutcome(env, sample, outcome)
  {
    result := BlankResult(sample);
    if outcome.Failed? {
      result := result.(error := outcome.message);
      return;
    }
    result := result.(agentResponse := outcome.response);
    var extracted := ExtractFunctionCalls(env.dec, outcome.response);
    if extracted.Err? {
      result := result.(error := ExtractionFailed + extracted.error,
                        details := result.details.(extractionError := Some(extracted.error)));
      return;
    }
    var calls := extracted.value;
    result := result.(predicted := Calls(calls));
    if sample.id !in env.groundTruth {
      result := result.(error := GroundTruthMissing);
      return;
    }
    var v := EvaluateMatch(env.lib, env.order, calls, env.groundTruth[sample.id]);
    result := result.(success := v.success, score := v.score, details := v.details);
  }

  /** What a sample's result means: it keeps the sample's ID and category;
      an agent error, a failed extraction or a missing ground truth leaves an
      error, no success and score 0; otherwise there is no error, the score
      lies in [0, 1], success means every expected call is matched and
      implies score 1, and the matched count never exceeds the expected
      count. */
  lemma SampleOutcomeMeaning(env: Env, sample: Sample, outcome: Outcome)
    requires ValidEnv(env)
    ensures var r := SampleOutcome(env, sample, outcome);
      r.sampleId == sample.id && r.category == sample.category && r.expected == sample.expected
    ensures var r := SampleOutcome(env, sample, outcome);
      outcome.Failed? ==> r.error == outcome.message && !r.success && r.score == 0.0
    ensures var r := SampleOutcome(env, sample, outcome);
      outcome.Responded? && ExtractedCalls(env.dec, outcome.response).Err? ==>
        r.error == ExtractionFailed + ExtractedCalls(env.dec, outcome.response).error && !r.success && r.score == 0.0
        && r.details.extractionError == Some(ExtractedCalls(env.dec, outcome.response).error)
    ensures var r := SampleOutcome(env, sample, outcome);
      outcome.Responded? && ExtractedCalls(env.dec, outcome.response).Ok? && sample.id !in env.groundTruth ==>
        r.error == GroundTruthMissing && !r.success && r.score == 0.0
        && r.predicted == Calls(ExtractedCalls(env.dec, outcome.response).value)
    ensures var r := SampleOutcome(env, sample, outcome);
      0.0 <= r.score <= 1.0 && (r.success ==> r.score == 1.0 && r.error == "")
    ensures BfclMetrics.CountsConsistent(SampleOutcome(env, sample, outcome))
  {
    if outcome.Responded? && ExtractedCalls(env.dec, outcome.response).Ok? && sample.id in env.groundTruth {
      var calls := ExtractedCalls(env.dec, outcome.response).value;
      var parsed := GroundTruthCalls(env.lib, env.order, env.groundTruth[sample.id]);
      if parsed.Ok? && |calls| > 0 && |parsed.value| > 0 {
        VerdictSuccess(env.lib, calls, parsed.value);
        VerdictScoreBounds(env.lib, calls, parsed.value);
      } else {
        VerdictFailures(env.lib, calls, parsed);
      }
    }
  }

  /** A successful sample is one whose reply yields calls such that every
      call of its parsed ground truth is matched with score 1 by one of them. */
  lemma SuccessMeansAllExpectedMatched(env: Env, sample: Sample, response: string)
    requires ValidEnv(env)
    requires SampleOutcome(env, sample, Responded(response)).success
    ensures ExtractedCalls(env.dec, response).Ok? && sample.id in env.groundTruth
    ensures var calls := ExtractedCalls(env.dec, response).value;
      var parsed := GroundTruthCalls(env.lib, env.order, env.groundTruth[sample.id]);
      parsed.Ok? && |calls| > 0 && |parsed.value| > 0
      && forall e :: e in parsed.value ==> exists p :: p in calls && CallScore(env.lib, p, e) == 1.0
  {
    var calls := ExtractedCalls(env.dec, response).value;
    var parsed := GroundTruthCalls(env.lib, env.order, env.groundTruth[sample.id]);
    if !(parsed.Ok? && |calls| > 0 && |parsed.value| > 0) {
      VerdictFailures(env.lib, calls, parsed);
    } else {
      VerdictSuccess(env.lib, calls, parsed.value);
    }
  }

  /** The result does not depend on the order in which Go iterates the maps
      of the ground truth. */
  lemma OutcomeOrderIrrelevant(env: Env, o2: KeyOrder, sample: Sample, outcome: Outcome)
    requires ValidEnv(env) && EnumeratesKeys(env.order) && EnumeratesKeys(o2)
    ensures SampleOutcome(env, sample, outcome).success == SampleOutcome(env.(order := o2), sample, outcome).success
    ensures SampleOutcome(env, sample, outcome).score == SampleOutcome(env.(order := o2), sample, outcome).score
  {
    if outcome.Responded? && ExtractedCalls(env.dec, outcome.response).Ok? && sample.id in env.groundTruth {
      var calls := ExtractedCalls(env.dec, outcome.response).value;
      var gt := env.groundTruth[sample.id];
      GroundTruthOrderIrrelevant(env.lib, env.order, o2, gt);
      var p1 := GroundTruthCalls(env.lib, env.order, gt);
      var p2 := GroundTruthCalls(env.lib, o2, gt);
      if p1.Ok? {
        VerdictPermutationInvariant(env.lib, calls, calls, p1.value, p2.value);
      }
    }
  }

  /** Precision can exceed 1 end to end: a reply whose one call matches both
      of two identical expected calls gives a summary with precision 2. */
  lemma PrecisionAboveOne(lib: Stdlib, sample: Sample)
    ensures var f := FunctionCall("f", map[]);
      var v := MatchVerdict(lib, [f], Ok([f, f]));
      var r := BlankResult(sample).(predicted := Calls([f]), success := v.success, score := v.score, details := v.details);
      BfclMetrics.Summary([r]).precision == 2.0 && BfclMetrics.Summary([r]).recall == 1.0
  {
    var f := FunctionCall("f", map[]);
    var v := MatchVerdict(lib, [f], Ok([f, f]));
    OnePredictionMatchesTwo(lib);
    var r := BlankResult(sample).(predicted := Calls([f]), success := v.success, score := v.score, details := v.details);
    assert [r][..0] == [];
    assert BfclMetrics.MatchedOf(r) == 2 && BfclMetrics.PredictedOf(r) == 1 && BfclMetrics.ExpectedOf(r) == 2;
    assert Tally.SumNat([r], BfclMetrics.MatchedOf) == 2;
    assert Tally.SumNat([r], BfclMetrics.PredictedOf) == 1;
    assert Tally.SumNat([r], BfclMetrics.ExpectedOf) == 2;
  }

  // ---------------------------------------------------------------------------
  // The evaluation loop

  /** The sample `Get` hands out: the stored one with its ground truth as the
      expected value when one is stored under its ID. */
  function Attached(s: Sample, groundTruth: map<string, Json>): Sample
  {
    if s.id in groundTruth then s.(expected := groundTruth[s.id]) else s
  }

  /** The results of the first `n` samples, in order, sample `k` scored from
      the agent's outcome `replies(k)`. */
  function Outcomes(env: Env, samples: seq<Sample>, n: nat, replies: nat -> Outcome): (rs: seq<SampleResult>)
    requires ValidEnv(env) && n <= |samples|
    ensures |rs| == n
  {
    if n == 0 then []
    else Outcomes(env, samples, n - 1, replies) + [SampleOutcome(env, Attached(samples[n - 1], env.groundTruth), replies(n - 1))]
  }

  /** `rs` holds, for each of its positions `k`, the result of sample `k`. */
  ghost predicate ScoredAs(rs: seq<SampleResult>, env: Env, samples: seq<Sample>, replies: nat -> Outcome)
    requires ValidEnv(env)
  {
    |rs| <= |samples| &&
    forall k {:trigger SampleOutcome(env, Attached(samples[k], env.groundTruth), replies(k))} :: 0 <= k < |rs| ==>
      rs[k] == SampleOutcome(env, Attached(samples[k], env.groundTruth), replies(k))
  }

  /** `Outcomes` scores every sample it covers. */
  lemma {:induction false} OutcomesScored(env: Env, samples: seq<Sample>, n: nat, replies: nat -> Outcome)
    requires ValidEnv(env) && n <= |samples|
    ensures ScoredAs(Outcomes(env, samples, n, replies), env, samples, replies)
    decreases n
  {
    if n > 0 {
      OutcomesScored(env, samples, n - 1, replies);
    }
  }

  /** The results of the first `m` samples do not depend on how many are
      evaluated after them. */
  lemma OutcomesPrefix(env: Env, samples: seq<Sample>, m: nat, n: nat, replies: nat -> Outcome)
    requires ValidEnv(env) && m <= n <= |samples|
    ensures Outcomes(env, samples, m, replies) == Outcomes(env, samples, n, replies)[..m]
  {
    var first, all := Outcomes(env, samples, m, replies), Outcomes(env, samples, n, replies);
    OutcomesScored(env, samples, m, replies);
    OutcomesScored(env, samples, n, replies);
    forall k | 0 <= k < m ensures first[k] == all[..m][k] {
      assert first[k] == SampleOutcome(env, Attached(samples[k], env.groundTruth), replies(k));
    }
  }

  /** Every result of an evaluation has a matched count within its expected
      count, so the summary's recall never exceeds 1. */
  lemma {:induction false} OutcomesRecallAtMostOne(env: Env, samples: seq<Sample>, n: nat, replies: nat -> Outcome)
    requires ValidEnv(env) && n <= |samples|
    ensures forall r :: r in Outcomes(env, samples, n, replies) ==> BfclMetrics.CountsConsistent(r)
    ensures 0.0 <= BfclMetrics.Summary(Outcomes(env, samples, n, replies)).recall <= 1.0
    decreases n
  {
    if n > 0 {
      OutcomesRecallAtMostOne(env, samples, n - 1, replies);
      SampleOutcomeMeaning(env, Attached(samples[n - 1], env.groundTruth), replies(n - 1));
    }
    BfclMetrics.RecallAtMostOne(Outcomes(env, samples, n, replies));
  }

  /** One step of the loop: the result of sample `i` is the one `expected`
      holds for it. */
  method EvaluateNext(env: Env, samples: seq<Sample>, i: nat, sample: Sample, replies: nat -> Outcome,
                      ghost expected: seq<SampleResult>)
      returns (sr: SampleResult)
    requires ValidEnv(env)
    requires i < |expected| <= |samples| && sample == Attached(samples[i], env.groundTruth)
    requires ScoredAs(expected, env, samples, replies)
    ensures sr == expected[i]
  {
    sr := EvaluateSample(env, sample, replies(i));
  }


  /** `Evaluate`. The configuration is the defaults with `opts` applied; the
      dataset is loaded first (a load error ends the evaluation with no
      result); then the first `SamplesToEvaluate` samples, each with its
      ground truth attached, are scored in order, each result appended and
      each success counted, the callback told `(i + 1, total)` after each
      sample. A context cancelled before sample `cancelAt` returns the
      partial result with the cancellation error; otherwise the accuracy,
      the evaluator's category table and the summary are filled in. */
  method Evaluate(ds: BfclDataset.Dataset, mode: string, opts: seq<EvalOption>, agentName: string,
                  lib: Stdlib, dec: CallDecoders, order: KeyOrder,
                  dirExists: bool, data: Result<LineFile>, truth: Option<LineFile>,
                  replies: nat -> Outcome, cancelAt: Option<nat>)
      returns (result: Option<EvalResult>, err: Option<string>, progress: seq<(nat, nat)>)
    requires DecodeShrinksStrings(lib.decode)
    modifies ds
    ensures ds.dataDir == old(ds.dataDir) && ds.category == old(ds.category)
    ensures result.None? <==> !ds.loaded
    ensures result.None? ==> err.Some? && HasPrefix(err.value, DatasetLoadFailed) && progress == []
    ensures old(ds.loaded) ==> result.Some? && ds.samples == old(ds.samples) && ds.groundTruth == old(ds.groundTruth)
    ensures !old(ds.loaded) && !dirExists ==>
      result.None? && err == Some(DatasetLoadFailed + (BfclDataset.DataDirMissing + old(ds.dataDir) + BfclDataset.DataDirHint))
      && ds.samples == old(ds.samples) && ds.groundTruth == old(ds.groundTruth)
    ensures !old(ds.loaded) && dirExists && data.Err? ==>
      result.None? && err == Some(DatasetLoadFailed + (BfclDataset.DataFileFailed + data.error))
      && ds.samples == old(ds.samples) && ds.groundTruth == old(ds.groundTruth)
    ensures !old(ds.loaded) && dirExists && data.Ok? ==>
      var (rows, rowErr) := BfclDataset.DataRows(old(ds.category), data.value.rows, 0);
      var dataErr := BfclDataset.FileError(rowErr, data.value);
      && ds.samples == old(ds.samples) + rows
      && (dataErr.Some? ==>
            result.None? && err == Some(DatasetLoadFailed + (BfclDataset.DataFileFailed + dataErr.value))
            && ds.groundTruth == old(ds.groundTruth))
      && (dataErr.None? && truth.None? ==> result.Some? && ds.groundTruth == old(ds.groundTruth))
      && (dataErr.None? && truth.Some? ==>
            var (gt, gtRowErr) := BfclDataset.GroundTruthRows(old(ds.category), truth.value.rows, 0, old(ds.groundTruth));
            var truthErr := BfclDataset.FileError(gtRowErr, truth.value);
            && ds.groundTruth == gt
            && (result.None? <==> truthErr.Some?)
            && (truthErr.Some? ==> err == Some(DatasetLoadFailed + (BfclDataset.GroundTruthFailed + truthErr.value))))
    ensures result.Some? ==>
      var env := Env(lib, dec, order, ds.groundTruth);
      var config := AppliedAll(DefaultConfig, opts);
      var total := SamplesToEvaluate(config.maxSamples, |ds.samples|);
      var done := Evaluated(total, cancelAt);
      var r := result.value;
      && ds.loaded
      && r.benchmarkName == EvaluatorName(ds.category, mode) && r.agentName == agentName
      && r.totalSamples == total
      && r.detailedResults == Outcomes(env, ds.samples, done, replies)
      && r.successCount == Successes(r.detailedResults)
      && progress == ProgressReports(config.progressCallback, done, total)
      && r.levelMetrics == map[]
      && (done < total ==>
            err == Some(Canceled) && r.overallAccuracy == 0.0 && r.categoryMetrics == map[] && r.metrics.None?)
      && (done == total ==>
            err.None? && r.overallAccuracy == Rate(r.successCount, total)
            && r.categoryMetrics == BfclMetrics.AccuracyTable(r.detailedResults)
            && r.metrics == Some(BfclMetrics.Summary(r.detailedResults)))
  {
    var config := new EvalConfig.Default();
    config.ApplyOptions(opts);
    var loadErr := ds.Load(dirExists, data, truth);
    if loadErr.Some? {
      return None, Some(DatasetLoadFailed + loadErr.value), [];
    }
    var env := Env(lib, dec, order, ds.groundTruth);
    var total := SamplesToEvaluate(config.maxSamples, ds.Len());
    ghost var expected := Outcomes(env, ds.samples, total, replies);
    OutcomesScored(env, ds.samples, total, replies);
    OutcomesPrefix(env, ds.samples, Evaluated(total, cancelAt), total, replies);
    var r;
    r, err, progress := RunSamples(ds, env, EvaluatorName(ds.category, mode), total, config.progressCallback,
                                   agentName, replies, cancelAt, expected);
    if err.None? {
      r := Finish(r);
    }
    result := Some(r);
  }

  /** The loop of `Evaluate`, once the dataset is loaded: the first `total`
      samples scored in order, each result appended and each success
      counted, unless the context is cancelled first. */
  method RunSamples(ds: BfclDataset.Dataset, env: Env, name: string, total: nat, cb: Option<nat>, agentName: string,
                    replies: nat -> Outcome, cancelAt: Option<nat>, ghost expected: seq<SampleResult>)
      returns (r: EvalResult, err: Option<string>, progress: seq<(nat, nat)>)
    requires ValidEnv(env) && env.groundTruth == ds.groundTruth
    requires total == |expected| <= |ds.samples|
    requires ScoredAs(expected, env, ds.samples, replies)
    ensures var done := Evaluated(total, cancelAt);
      && r.benchmarkName == name && r.agentName == agentName
      && r.totalSamples == total
      && r.detailedResults == expected[..done]
      && r.successCount == Successes(r.detailedResults)
      && progress == ProgressReports(cb, done, total)
      && r.overallAccuracy == 0.0 && r.categoryMetrics == map[] && r.levelMetrics == map[] && r.metrics.None?
      && (err.None? <==> done == total) && (err.Some? ==> err.value == Canceled)
  {
    r := EvalResult(name, agentName, total, 0, 0.0, map[], map[], [], None);
    progress := [];
    var i := 0;
    while i < total
      invariant 0 <= i <= total
      invariant cancelAt.Some? ==> i <= cancelAt.value
      invariant r.benchmarkName == name && r.agentName == agentName && r.totalSamples == total
      invariant r.overallAccuracy == 0.0 && r.categoryMetrics == map[] && r.levelMetrics == map[] && r.metrics.None?
      invariant r.detailedResults == expected[..i]
      invariant r.successCount == Successes(r.detailedResults)
      invariant progress == ProgressReports(cb, i, total)
    {
      if cancelAt == Some(i) {
        return r, Some(Canceled), progress;
      }
      var sample := ds.Get(i).value;
      var sr := EvaluateNext(env, ds.samples, i, sample, replies, expected);
      SuccessesSnoc(r.detailedResults, sr);
      assert expected[..i + 1] == expected[..i] + [sr];
      r := r.(detailedResults := r.detailedResults + [sr]);
      if sr.success {
        r := r.(successCount := r.successCount + 1);
      }
      if cb.Some? {
        progress := progress + [(i + 1, total)];
      }
      i := i + 1;
    }
    err := None;
  }

  /** The end of an uncancelled evaluation: the accuracy over the samples
      evaluated, the evaluator's category table and the summary. */
  method Finish(r0: EvalResult) returns (r: EvalResult)
    requires r0.overallAccuracy == 0.0
    ensures r == r0.(overallAccuracy := Rate(r0.successCount, r0.totalSamples),
                     categoryMetrics := BfclMetrics.AccuracyTable(r0.detailedResults),
                     metrics := Some(BfclMetrics.Summary(r0.detailedResults)))
  {
    r := r0;
    if r.totalSamples > 0 {
      r := r.(overallAccuracy := r.successCount as real / r.totalSamples as real);
    }
    var categories := BfclMetrics.ComputeCategoryAccuracy(r.detailedResults);
    r := r.(categoryMetrics := categories);
    var summary := BfclMetrics.Compute(r.detailedResults);
    r := r.(metrics := Some(summary));
  }
}
