/** The GAIA evaluator: scoring one sample from the agent's reply, and the
    evaluation loop over the dataset with its counters, progress reports,
    cancellation, level table and summary. The agent is a collaborator: the
    model receives the outcome of its run for each sample. */
module GaiaEvaluator {
  import opened Wrappers
  import opened JsonValues
  import opened Tally
  import opened EvalTypes
  import opened Options
  import opened GaiaAnswers
  import GaiaMetrics
  import GaiaDataset

  // ---------------------------------------------------------------------------
  // One sample

  /** The result `EvaluateSample` starts from: the sample's identity and an
      empty details map. */
  function BlankResult(sample: Sample): SampleResult
  {
    SampleResult(sample.id, NoPrediction, sample.expected, false, false, 0.0,
                 sample.category, sample.level, "", NoDetails, "")
  }

  const ExpectedFormatError := "期望答案格式错误"

  /** The result of one sample given the agent's outcome: the agent's error,
      or the scored reply. */
  function SampleOutcome(sample: Sample, outcome: Outcome): SampleResult
  {
    match outcome
    case Failed(message) => BlankResult(sample).(error := message)
    case Responded(response) => Answered(sample, response, Extracted(response))
  }

  /** The result for a reply and the answer extracted from it: an error when
      the expected answer is not a string, otherwise the two match flags of
      the normal forms and the score. */
  function Answered(sample: Sample, response: string, predicted: string): SampleResult
  {
    var answered := BlankResult(sample).(agentResponse := response, predicted := Answer(predicted),
                                         details := NoDetails.(extractedAnswer := Some(predicted)));
    match sample.expected
    case JStr(expected) =>
      Judged(answered, Normalize(predicted) == Normalize(expected), PartialMatch(Normalize(predicted), Normalize(expected)))
    case _ => answered.(error := ExpectedFormatError)
  }

  /** `EvaluateSample`. */
  method EvaluateSample(sample: Sample, outcome: Outcome) returns (result: SampleResult)
    ensures result == SampleOutcome(sample, outcome)
  {
    if outcome.Failed? {
      result := BlankResult(sample);
      result := result.(error := outcome.message);
      return;
    }
    var predicted := ExtractAnswer(outcome.response);
    result := ScoreAnswer(sample, outcome.response, predicted);
  }

  method ScoreAnswer(sample: Sample, response: string, predicted: string) returns (result: SampleResult)
    ensures result == Answered(sample, response, predicted)
  {
    var answered := BlankResult(sample).(agentResponse := response, predicted := Answer(predicted),
                                         details := NoDetails.(extractedAnswer := Some(predicted)));
    if !sample.expected.JStr? {
      return answered.(error := ExpectedFormatError);
    }
    var exact, partial := EvaluateMatch(predicted, sample.expected.s);
    result := Judged(answered, exact, partial);
  }

  function Judged(answered: SampleResult, exact: bool, partial: bool): SampleResult
  {
      answered.(success := exact, partialSuccess := partial, score := MatchScore(exact, partial),
                details := answered.details.(exactMatch := Some(exact), partialMatch := Some(partial)))
  }

  /** What a sample's result means: success is the exact match of the normal
      forms of the extracted and the expected answer, partial success the
      looser rule, the score 1.0, 0.5 or 0.0 accordingly; an agent error or an
      expected answer that is not a string leaves an error and no success. */
  lemma SampleOutcomeMeaning(sample: Sample, outcome: Outcome)
    ensures var r := SampleOutcome(sample, outcome);
      r.sampleId == sample.id && r.level == sample.level && r.category == sample.category
    ensures var r := SampleOutcome(sample, outcome);
      r.success ==> r.partialSuccess
    ensures var r := SampleOutcome(sample, outcome);
      r.score == 1.0 || r.score == 0.5 || r.score == 0.0
    ensures var r := SampleOutcome(sample, outcome);
      outcome.Failed? ==> r.error == outcome.message && !r.success && !r.partialSuccess && r.score == 0.0
    ensures var r := SampleOutcome(sample, outcome);
      outcome.Responded? && !sample.expected.JStr? ==>
        r.error == ExpectedFormatError && !r.success && r.predicted == Answer(Extracted(outcome.response))
    ensures var r := SampleOutcome(sample, outcome);
      outcome.Responded? && sample.expected.JStr? ==>
        r.error == "" && r.predicted == Answer(Extracted(outcome.response))
        && (r.success <==> Normalize(Extracted(outcome.response)) == Normalize(sample.expected.s))
        && (r.partialSuccess <==> PartialMatch(Normalize(Extracted(outcome.response)), Normalize(sample.expected.s)))
        && (r.score == 1.0 <==> r.success)
        && (r.score == 0.5 <==> !r.success && r.partialSuccess)
  {
  }

  /** A reply whose extracted answer has an empty normal form is always at
      least a partial match. */
  lemma EmptyAnswerScoresPartial(sample: Sample, response: string)
    requires sample.expected.JStr? && Normalize(Extracted(response)) == ""
    ensures SampleOutcome(sample, Responded(response)).partialSuccess
    ensures SampleOutcome(sample, Responded(response)).score >= 0.5
  {
    EmptyPredictionIsPartial(Normalize(sample.expected.s));
  }

  // ---------------------------------------------------------------------------
  // The evaluation loop

  /** The results of the first `n` samples, in order, sample `k` scored by
      `score` from the agent's outcome `replies(k)`. */
  function Outcomes(samples: seq<Sample>, n: nat, replies: nat -> Outcome,
                    score: (Sample, Outcome) -> SampleResult): (rs: seq<SampleResult>)
    requires n <= |samples|
    ensures |rs| == n
  {
    if n == 0 then [] else Outcomes(samples, n - 1, replies, score) + [score(samples[n - 1], replies(n - 1))]
  }

  /** Result `k` is the score of sample `k`, whatever the number of samples
      evaluated beyond it. */
  lemma {:induction false} OutcomeAt(samples: seq<Sample>, n: nat, replies: nat -> Outcome,
                                     score: (Sample, Outcome) -> SampleResult, k: nat)
    requires k < n <= |samples|
    ensures Outcomes(samples, n, replies, score)[k] == score(samples[k], replies(k))
    decreases n
  {
    if k < n - 1 {
      OutcomeAt(samples, n - 1, replies, score, k);
    }
  }

  /** The results of the first `n` samples do not depend on how many are
      evaluated after them. */
  lemma {:induction false} OutcomesPrefix(samples: seq<Sample>, m: nat, n: nat, replies: nat -> Outcome,
                                          score: (Sample, Outcome) -> SampleResult)
    requires m <= n <= |samples|
    ensures Outcomes(samples, m, replies, score) == Outcomes(samples, n, replies, score)[..m]
    decreases n
  {
    if m < n {
      OutcomesPrefix(samples, m, n - 1, replies, score);
      var prev := Outcomes(samples, n - 1, replies, score);
      assert Outcomes(samples, n, replies, score)[..n - 1] == prev;
      assert prev[..m] == Outcomes(samples, n, replies, score)[..m];
    }
  }

  /** `rs` holds, for each of its positions `k`, the score of sample `k`. */
  ghost predicate ScoredAs(rs: seq<SampleResult>, samples: seq<Sample>, replies: nat -> Outcome,
                           score: (Sample, Outcome) -> SampleResult)
  {
    |rs| <= |samples| &&
    forall k {:trigger score(samples[k], replies(k))} :: 0 <= k < |rs| ==> rs[k] == score(samples[k], replies(k))
  }

  /** `Outcomes` scores every sample it covers. */
  lemma OutcomesScored(samples: seq<Sample>, n: nat, replies: nat -> Outcome,
                       score: (Sample, Outcome) -> SampleResult)
    requires n <= |samples|
    ensures ScoredAs(Outcomes(samples, n, replies, score), samples, replies, score)
  {
    forall k | 0 <= k < n
      ensures Outcomes(samples, n, replies, score)[k] == score(samples[k], replies(k))
    {
      OutcomeAt(samples, n, replies, score, k);
    }
  }

  /** One step of the loop: the result of sample `i` is the one `expected`
      holds for it. */
  method EvaluateNext(samples: seq<Sample>, i: nat, sample: Sample, replies: nat -> Outcome,
                      ghost expected: seq<SampleResult>)
      returns (sr: SampleResult)
    requires i < |expected| <= |samples| && sample == samples[i]
    requires ScoredAs(expected, samples, replies, SampleOutcome)
    ensures sr == expected[i]
  {
    sr := EvaluateSample(sample, replies(i));
  }

  /** `Evaluate`. The configuration is the defaults with `opts` applied; the
      dataset is loaded first (a load error ends the evaluation with no
      result); then the first `SamplesToEvaluate` samples are scored in order,
      each result appended and each success counted, the callback told
      `(i + 1, total)` after each sample. A context cancelled before sample
      `cancelAt` returns the partial result with the cancellation error;
      otherwise the accuracy, the level table and the summary are filled in. */
  method Evaluate(ds: GaiaDataset.Dataset, opts: seq<EvalOption>, agentName: string,
                  dirExists: bool, files: seq<GaiaDataset.DecodedFile>,
                  replies: nat -> Outcome, cancelAt: Option<nat>)
      returns (result: Option<EvalResult>, err: Option<string>, progress: seq<(nat, nat)>)
    modifies ds
    ensures ds.dataDir == old(ds.dataDir) && ds.level == old(ds.level) && ds.split == old(ds.split)
    ensures old(ds.loaded) ==> ds.samples == old(ds.samples) && ds.loaded
    ensures !old(ds.loaded) && !dirExists ==> ds.samples == old(ds.samples) && !ds.loaded
    ensures !old(ds.loaded) && dirExists ==>
      ds.samples == old(ds.samples) + GaiaDataset.LoadedSamples(files, old(ds.level)) && ds.loaded == (ds.samples != [])
    ensures var loadErr := if old(ds.loaded) then None
                           else if !dirExists then Some("GAIA 数据目录不存在: " + old(ds.dataDir) + GaiaDataset.DirMissingHint)
                           else if old(ds.samples) + GaiaDataset.LoadedSamples(files, old(ds.level)) == [] then Some("无法加载 GAIA 数据")
                           else None;
      && (result.None? <==> loadErr.Some?)
      && (loadErr.Some? ==> err == Some(DatasetLoadFailed + loadErr.value) && progress == [])
    ensures result.Some? ==>
      var config := AppliedAll(DefaultConfig, opts);
      var total := SamplesToEvaluate(config.maxSamples, |ds.samples|);
      var done := Evaluated(total, cancelAt);
      var r := result.value;
      && r.benchmarkName == ds.Name() && r.agentName == agentName
      && r.totalSamples == total
      && r.detailedResults == Outcomes(ds.samples, done, replies, SampleOutcome)
      && r.successCount == Successes(r.detailedResults)
      && progress == ProgressReports(config.progressCallback, done, total)
      && r.categoryMetrics == map[]
      && (done < total ==>
            err == Some(Canceled) && r.overallAccuracy == 0.0 && r.levelMetrics == map[] && r.metrics.None?)
      && (done == total ==>
            err.None? && r.overallAccuracy == Rate(r.successCount, total)
            && r.levelMetrics == GaiaMetrics.LevelTable(r.detailedResults)
            && r.metrics == Some(GaiaMetrics.Summary(r.detailedResults)))
  {
    var config := new EvalConfig.Default();
    config.ApplyOptions(opts);
    var loadErr := ds.Load(dirExists, files);
    if loadErr.Some? {
      return None, Some(DatasetLoadFailed + loadErr.value), [];
    }
    var total := SamplesToEvaluate(config.maxSamples, ds.Len());
    ghost var expected := Outcomes(ds.samples, total, replies, SampleOutcome);
    OutcomesScored(ds.samples, total, replies, SampleOutcome);
    OutcomesPrefix(ds.samples, Evaluated(total, cancelAt), total, replies, SampleOutcome);
    var r;
    r, err, progress := RunSamples(ds, ds.Name(), total, config.progressCallback, agentName, replies, cancelAt,
                                   expected);
    if err.None? {
      r := Finish(r);
    }
    result := Some(r);
  }

  /** The loop of `Evaluate`, once the dataset is loaded: the first `total`
      samples scored in order, each result appended and each success
      counted, unless the context is cancelled first. */
  method RunSamples(ds: GaiaDataset.Dataset, name: string, total: nat, cb: Option<nat>, agentName: string,
                    replies: nat -> Outcome, cancelAt: Option<nat>, ghost expected: seq<SampleResult>)
      returns (r: EvalResult, err: Option<string>, progress: seq<(nat, nat)>)
    requires total == |expected| <= |ds.samples|
    requires ScoredAs(expected, ds.samples, replies, SampleOutcome)
    ensures var done := Evaluated(total, cancelAt);
      && r.benchmarkName == name && r.agentName == agentName
      && r.totalSamples == total
      && r.detailedResults == expected[..done]
      && r.successCount == Successes(r.detailedResults)
      && progress == ProgressReports(cb, done, total)
      && r.overallAccuracy == 0.0 && r.categoryMetrics == map[] && r.levelMetrics == map[] && r.metrics.None?
      && (err.None? <==> done == total) && (err.Some? ==> err.value == Canceled)
  {
    r := EvalResult(name, agentName, total, 0, 0.0, map[], map[], [], None);
    progress := [];
    var i := 0;
    while i < total
      invariant 0 <= i <= total
      invariant cancelAt.Some? ==> i <= cancelAt.value
      invariant r.benchmarkName == name && r.agentName == agentName && r.totalSamples == total
      invariant r.overallAccuracy == 0.0 && r.categoryMetrics == map[] && r.levelMetrics == map[] && r.metrics.None?
      invariant r.detailedResults == expected[..i]
      invariant r.successCount == Successes(r.detailedResults)
      invariant progress == ProgressReports(cb, i, total)
    {
      if cancelAt == Some(i) {
        return r, Some(Canceled), progress;
      }
      var sample := ds.Get(i).value;
      var sr := EvaluateNext(ds.samples, i, sample, replies, expected);
      SuccessesSnoc(r.detailedResults, sr);
      assert expected[..i + 1] == expected[..i] + [sr];
      r := r.(detailedResults := r.detailedResults + [sr]);
      if sr.success {
        r := r.(successCount := r.successCount + 1);
      }
      if cb.Some? {
        progress := progress + [(i + 1, total)];
      }
      i := i + 1;
    }
    err := None;
  }

  /** The end of an uncancelled evaluation: the accuracy over the samples
      evaluated, the level table and the summary of the results. */
  method Finish(r0: EvalResult) returns (r: EvalResult)
    requires r0.overallAccuracy == 0.0
    ensures r == r0.(overallAccuracy := Rate(r0.successCount, r0.totalSamples),
                     levelMetrics := GaiaMetrics.LevelTable(r0.detailedResults),
                     metrics := Some(GaiaMetrics.Summary(r0.detailedResults)))
  {
    r := r0;
    if r.totalSamples > 0 {
      r := r.(overallAccuracy := r.successCount as real / r.totalSamples as real);
    }
    var levels := GaiaMetrics.ComputeLevelMetrics(r.detailedResults);
    r := r.(levelMetrics := levels);
    var summary := GaiaMetrics.Compute(r.detailedResults);
    r := r.(metrics := Some(summary));
  }
}
