/** The LLM judge of the data-generation benchmark: the prompt that asks a
    model to rate a generated problem, the parsing of its reply into four
    dimension scores, the verdict per sample (pass at a mean of 3), the
    summary metrics and the evaluation loop. The model that judges is a
    collaborator: for sample `i` it receives the prompt and gives back a
    reply or an error. */
module DatagenJudge {
  import opened Wrappers
  import opened JsonValues
  import opened Text
  import opened Tally
  import opened EvalTypes
  import opened Options
  import DatagenDataset

  const DefaultDimension := 3.0
  const PassMark := 3.0
  const ExcellentMark := 4.0
  const JudgeName := "LLMJudge"

  // ---------------------------------------------------------------------------
  // parseJudgeResponse

  /** The text the reply's JSON is read from: the first fenced block when the
      reply has one, else the whole reply. */
  function JudgeContent(response: string): string
  {
    var blocks := FencedBlocks(response, 0);
    if |blocks| > 0 then blocks[0] else response
  }

  /** The fields of the judge's JSON object; none when the text does not
      decode to an object (`null` decodes to no fields either). */
  function JudgeFields(decode: string -> Option<Json>, content: string): map<string, Json>
  {
    match decode(content)
    case Some(JObj(fields)) => fields
    case _ => map[]
  }

  /** A dimension: the number under `key`, else the default 3. */
  function Dimension(fields: map<string, Json>, key: string): real
  {
    match NumberAt(fields, key) case Some(v) => v case None => DefaultDimension
  }

  /** The four dimensions and the comments of a decoded object, before the
      total is computed. */
  function Dimensions(fields: map<string, Json>): JudgeScore
  {
    JudgeScore(
      Dimension(fields, "correctness"), Dimension(fields, "clarity"),
      Dimension(fields, "difficulty_match"), Dimension(fields, "completeness"),
      0.0, match StringAt(fields, "comments") case Some(c) => c case None => "")
  }

  /** The scores of a decoded object, the total being their mean. */
  function ScoreFromFields(fields: map<string, Json>): (s: JudgeScore)
  {
    var dims := Dimensions(fields);
    dims.(totalScore := DimensionMean(dims))
  }

  /** The scores read from a judge's reply. */
  function ParsedScore(decode: string -> Option<Json>, response: string): JudgeScore
  {
    ScoreFromFields(JudgeFields(decode, JudgeContent(response)))
  }

  /** `parseJudgeResponse`: a default score whose fields are overwritten one
      by one from the decoded object, then the total recomputed. */
  method ParseJudgeResponse(decode: string -> Option<Json>, response: string) returns (score: JudgeScore)
    ensures score == ParsedScore(decode, response)
  {
    score := JudgeScore(DefaultDimension, DefaultDimension, DefaultDimension, DefaultDimension, 0.0, "");
    var blocks := FencedBlocks(response, 0);
    var content := response;
    if |blocks| > 0 {
      content := blocks[0];
    }
    var decoded := decode(content);
    if decoded.Some? && decoded.value.JObj? {
      score := OverrideFields(score, decoded.value.fields);
    }
    score := score.(totalScore := (score.correctness + score.clarity + score.difficultyMatch + score.completeness) / 4.0);
  }

  /** The overrides of `parseJudgeResponse`: each dimension found as a
      number, and the comments found as a string, replace the default. */
  method OverrideFields(default: JudgeScore, parsed: map<string, Json>) returns (score: JudgeScore)
    requires default == JudgeScore(DefaultDimension, DefaultDimension, DefaultDimension, DefaultDimension, 0.0, "")
    ensures score == Dimensions(parsed)
  {
    score := default;
    var v := NumberAt(parsed, "correctness");
    if v.Some? { score := score.(correctness := v.value); }
    v := NumberAt(parsed, "clarity");
    if v.Some? { score := score.(clarity := v.value); }
    v := NumberAt(parsed, "difficulty_match");
    if v.Some? { score := score.(difficultyMatch := v.value); }
    v := NumberAt(parsed, "completeness");
    if v.Some? { score := score.(completeness := v.value); }
    var c := StringAt(parsed, "comments");
    if c.Some? { score := score.(comments := c.value); }
  }

  /** A reply without a JSON object scores 3 in every dimension and in total,
      with no comments. */
  lemma NoJsonGivesDefaults(decode: string -> Option<Json>, response: string)
    requires forall fields :: decode(JudgeContent(response)) != Some(JObj(fields))
    ensures ParsedScore(decode, response) == JudgeScore(3.0, 3.0, 3.0, 3.0, 3.0, "")
  {
  }

  /** Only the first fenced block is read: when it does not decode to an
      object, the scores are the defaults, whatever the rest of the reply
      (the reply as a whole is not tried). */
  lemma FirstBlockOnly(decode: string -> Option<Json>, response: string)
    requires |FencedBlocks(response, 0)| > 0
    requires forall fields :: decode(FencedBlocks(response, 0)[0]) != Some(JObj(fields))
    ensures ParsedScore(decode, response) == JudgeScore(3.0, 3.0, 3.0, 3.0, 3.0, "")
  {
  }

  /** Each dimension is the number under its own key when there is one, and
      the default otherwise; values are not clamped to 1..5; the comments are
      the string under `comments`; the total is the mean of the four. */
  lemma ScoreFromFieldsMeaning(fields: map<string, Json>)
    ensures var s := ScoreFromFields(fields);
      && (NumberAt(fields, "correctness").Some? ==> s.correctness == NumberAt(fields, "correctness").value)
      && (NumberAt(fields, "correctness").None? ==> s.correctness == 3.0)
      && (NumberAt(fields, "clarity").Some? ==> s.clarity == NumberAt(fields, "clarity").value)
      && (NumberAt(fields, "clarity").None? ==> s.clarity == 3.0)
      && (NumberAt(fields, "difficulty_match").Some? ==> s.difficultyMatch == NumberAt(fields, "difficulty_match").value)
      && (NumberAt(fields, "difficulty_match").None? ==> s.difficultyMatch == 3.0)
      && (NumberAt(fields, "completeness").Some? ==> s.completeness == NumberAt(fields, "completeness").value)
      && (NumberAt(fields, "completeness").None? ==> s.completeness == 3.0)
      && (StringAt(fields, "comments").Some? ==> s.comments == StringAt(fields, "comments").value)
      && (StringAt(fields, "comments").None? ==> s.comments == "")
      && 4.0 * s.totalScore == s.correctness + s.clarity + s.difficultyMatch + s.completeness
  {
  }

  /** A field under any other key, or a non-numeric value under a dimension's
      key, changes nothing: overriding is per key and numbers only. */
  lemma OtherFieldsIgnored(fields: map<string, Json>, key: string, v: Json)
    requires key !in {"correctness", "clarity", "difficulty_match", "completeness", "comments"} || (!v.JNum? && !v.JStr?)
    requires key in fields ==> !fields[key].JNum? && !fields[key].JStr?
    ensures ScoreFromFields(fields[key := v]) == ScoreFromFields(fields)
  {
    var f2 := fields[key := v];
    assert NumberAt(f2, "correctness") == NumberAt(fields, "correctness");
    assert NumberAt(f2, "clarity") == NumberAt(fields, "clarity");
    assert NumberAt(f2, "difficulty_match") == NumberAt(fields, "difficulty_match");
    assert NumberAt(f2, "completeness") == NumberAt(fields, "completeness");
    assert StringAt(f2, "comments") == StringAt(fields, "comments");
  }

  /** Scores outside 1..5 are kept as they are: a correctness of 9 with the
      other dimensions missing gives a total of 4.5. */
  lemma NotClamped()
    ensures ScoreFromFields(map["correctness" := JNum(9.0)]).correctness == 9.0
    ensures ScoreFromFields(map["correctness" := JNum(9.0)]).totalScore == 4.5
  {
    assert NumberAt(map["correctness" := JNum(9.0)], "clarity").None?;
  }

  // ---------------------------------------------------------------------------
  // EvaluateSample

  /** The result `EvaluateSample` starts from: ID, category and an empty
      details map. */
  function BlankResult(sample: Sample): SampleResult
  {
    SampleResult(sample.id, NoPrediction, JNull, false, false, 0.0, sample.category, 0, "", NoDetails, "")
  }

  /** A reply rated with `s`: the score is the mean of the dimensions and the
      sample passes at 3; the details record the scores. */
  function Rated(answered: SampleResult, s: JudgeScore): SampleResult
  {
    var mean := DimensionMean(s);
    answered.(predicted := Judged(s), score := mean, success := mean >= PassMark,
              details := NoDetails.(judgeScore := Some(s), totalScore := Some(mean),
                                    correctness := Some(s.correctness), clarity := Some(s.clarity),
                                    difficultyMatch := Some(s.difficultyMatch),
                                    completeness := Some(s.completeness), comments := Some(s.comments)))
  }

  /** The result of one sample given the judge's outcome. */
  function JudgeOutcome(decode: string -> Option<Json>, sample: Sample, outcome: Outcome): SampleResult
  {
    match outcome
    case Failed(message) => BlankResult(sample).(error := message)
    case Responded(response) => Rated(BlankResult(sample).(agentResponse := response), ParsedScore(decode, response))
  }

  /** `EvaluateSample`: the prompt built for the sample and its reference is
      sent to the judge, whose outcome is scored. */
  method EvaluateSample(decode: string -> Option<Json>, sample: Sample, ref: Option<Sample>, judge: string -> Outcome)
      returns (result: SampleResult)
    ensures result == JudgeOutcome(decode, sample, judge(JudgePrompt(sample, ref)))
  {
    result := BlankResult(sample);
    var prompt := BuildJudgePrompt(sample, ref);
    var resp := judge(prompt);
    if resp.Failed? {
      result := result.(error := resp.message);
      return;
    }
    result := result.(agentResponse := resp.response);
    var score := ParseJudgeResponse(decode, resp.response);
    var totalScore := (score.correctness + score.clarity + score.difficultyMatch + score.completeness) / 4.0;
    result := result.(predicted := Judged(score), score := totalScore, success := totalScore >= 3.0);
    result := result.(details := NoDetails.(judgeScore := Some(score), totalScore := Some(totalScore),
                                            correctness := Some(score.correctness), clarity := Some(score.clarity),
                                            difficultyMatch := Some(score.difficultyMatch),
                                            completeness := Some(score.completeness), comments := Some(score.comments)));
  }

  /** What a judged sample means: success exactly when the mean of the four
      dimensions is at least 3, the score being that mean; a reply without
      JSON passes with 3; a failed call leaves the error, no success and
      score 0. */
  lemma JudgeOutcomeMeaning(decode: string -> Option<Json>, sample: Sample, outcome: Outcome)
    ensures var r := JudgeOutcome(decode, sample, outcome);
      r.sampleId == sample.id && r.category == sample.category
    ensures outcome.Failed? ==>
      var r := JudgeOutcome(decode, sample, outcome);
      r.error == outcome.message && !r.success && r.score == 0.0 && r.details == NoDetails
    ensures outcome.Responded? ==>
      var r := JudgeOutcome(decode, sample, outcome);
      var s := ParsedScore(decode, outcome.response);
      && r.error == "" && r.predicted == Judged(s) && r.agentResponse == outcome.response
      && 4.0 * r.score == s.correctness + s.clarity + s.difficultyMatch + s.completeness
      && (r.success <==> r.score >= 3.0)
      && r.details.correctness == Some(s.correctness) && r.details.totalScore == Some(r.score)
    ensures outcome.Responded? && (forall fields :: decode(JudgeContent(outcome.response)) != Some(JObj(fields))) ==>
      JudgeOutcome(decode, sample, outcome).success && JudgeOutcome(decode, sample, outcome).score == 3.0
  {
    if outcome.Responded? && (forall fields :: decode(JudgeContent(outcome.response)) != Some(JObj(fields))) {
      NoJsonGivesDefaults(decode, outcome.response);
    }
  }

  /** An excellent sample (score at least 4) always passes. */
  lemma ExcellentPasses(decode: string -> Option<Json>, sample: Sample, outcome: Outcome)
    ensures JudgeOutcome(decode, sample, outcome).score >= ExcellentMark ==> JudgeOutcome(decode, sample, outcome).success
  {
  }

  // ---------------------------------------------------------------------------
  // buildJudgePrompt

  /** The pieces of the prompt, in the order they are appended. */
  datatype PromptPart =
    | Question(text: string)
    | AnswerLine(text: string)
    | CategoryLine(text: string)
    | ReferenceQuestion(text: string)
    | Closing

  function RenderPart(p: PromptPart): string
  {
    match p
    case Question(t) => "## 待评估题目\n\n**问题**: " + t + "\n"
    case AnswerLine(t) => "\n**答案**: " + t + "\n"
    case CategoryLine(t) => "\n**类别/难度**: " + t + "\n"
    case ReferenceQuestion(t) => "\n---\n\n## 参考题目（用于对比）\n\n**问题**: " + t + "\n"
    case Closing => "\n请对待评估题目进行打分。"
  }

  function Render(parts: seq<PromptPart>): string
  {
    if parts == [] then "" else Render(parts[..|parts| - 1]) + RenderPart(parts[|parts| - 1])
  }

  /** The answer line of a sample: only for a non-empty string answer. */
  function AnswerParts(expected: Json): seq<PromptPart>
  {
    if expected.JStr? && expected.s != "" then [AnswerLine(expected.s)] else []
  }

  /** The category line: only for a non-empty category. */
  function CategoryParts(category: string): seq<PromptPart>
  {
    if category != "" then [CategoryLine(category)] else []
  }

  /** The reference section: only when a reference is given. */
  function ReferenceParts(ref: Option<Sample>): seq<PromptPart>
  {
    match ref case None => [] case Some(r) => [ReferenceQuestion(r.input)] + AnswerParts(r.expected)
  }

  /** The pieces of the prompt for a sample and its optional reference. */
  function PromptParts(sample: Sample, ref: Option<Sample>): seq<PromptPart>
  {
    [Question(sample.input)] + AnswerParts(sample.expected) + CategoryParts(sample.category)
    + ReferenceParts(ref) + [Closing]
  }

  function JudgePrompt(sample: Sample, ref: Option<Sample>): string
  {
    Render(PromptParts(sample, ref))
  }

  lemma RenderSnoc(parts: seq<PromptPart>, p: PromptPart)
    ensures Render(parts + [p]) == Render(parts) + RenderPart(p)
  {
    assert (parts + [p])[..|parts|] == parts;
  }

  /** `buildJudgePrompt`: the question, then each optional line appended. */
  method BuildJudgePrompt(sample: Sample, ref: Option<Sample>) returns (prompt: string)
    ensures prompt == JudgePrompt(sample, ref)
  {
    ghost var parts;
    prompt, parts := SampleSection(sample);
    prompt, parts := ReferenceSection(prompt, parts, ref);
    prompt, parts := Append(prompt, parts, Closing);
  }

  /** The first stage of `buildJudgePrompt`: the question, the sample's
      answer line and its category line. */
  method SampleSection(sample: Sample) returns (prompt: string, ghost parts: seq<PromptPart>)
    ensures parts == [Question(sample.input)] + AnswerParts(sample.expected) + CategoryParts(sample.category)
    ensures prompt == Render(parts)
  {
    parts := [Question(sample.input)];
    prompt := RenderPart(Question(sample.input));
    assert Render(parts) == Render([]) + RenderPart(parts[0]);
    if sample.expected.JStr? && sample.expected.s != "" {
      prompt, parts := Append(prompt, parts, AnswerLine(sample.expected.s));
    }
    ghost var head := parts;
    assert head == [Question(sample.input)] + AnswerParts(sample.expected);
    if sample.category != "" {
      prompt, parts := Append(prompt, parts, CategoryLine(sample.category));
    }
    assert parts == head + CategoryParts(sample.category);
  }

  /** The second stage: the reference's question and answer line, when a
      reference is given. */
  method ReferenceSection(prompt: string, ghost parts: seq<PromptPart>, ref: Option<Sample>)
      returns (longer: string, ghost more: seq<PromptPart>)
    requires prompt == Render(parts)
    ensures more == parts + ReferenceParts(ref) && longer == Render(more)
  {
    longer, more := prompt, parts;
    if ref.Some? {
      var r := ref.value;
      longer, more := Append(longer, more, ReferenceQuestion(r.input));
      if r.expected.JStr? && r.expected.s != "" {
        longer, more := Append(longer, more, AnswerLine(r.expected.s));
      }
      assert more == parts + [ReferenceQuestion(r.input)] + AnswerParts(r.expected);
    } else {
      assert more == parts + [];
    }
  }

  /** `prompt += ...` for one piece. */
  method Append(prompt: string, ghost parts: seq<PromptPart>, p: PromptPart)
      returns (longer: string, ghost more: seq<PromptPart>)
    requires prompt == Render(parts)
    ensures more == parts + [p] && longer == Render(more)
  {
    RenderSnoc(parts, p);
    longer := prompt + RenderPart(p);
    more := parts + [p];
  }

  /** The prompt opens with the question and closes with the request to
      rate; its second piece is the sample's answer line exactly when the
      answer is a non-empty string; it has a category line exactly when the
      category is set, and a reference section exactly when a reference is
      given, each with that text. */
  lemma PromptMeaning(sample: Sample, ref: Option<Sample>)
    ensures var ps := PromptParts(sample, ref);
      ps[0] == Question(sample.input) && ps[|ps| - 1] == Closing
    ensures var ps := PromptParts(sample, ref);
      ps[1].AnswerLine? <==> sample.expected.JStr? && sample.expected.s != ""
    ensures var ps := PromptParts(sample, ref);
      ps[1].AnswerLine? ==> ps[1].text == sample.expected.s
    ensures var ps := PromptParts(sample, ref);
      (exists k :: 0 <= k < |ps| && ps[k].CategoryLine?) <==> sample.category != ""
    ensures var ps := PromptParts(sample, ref);
      forall k :: 0 <= k < |ps| && ps[k].CategoryLine? ==> ps[k].text == sample.category
    ensures var ps := PromptParts(sample, ref);
      (exists k :: 0 <= k < |ps| && ps[k].ReferenceQuestion?) <==> ref.Some?
    ensures var ps := PromptParts(sample, ref);
      forall k :: 0 <= k < |ps| && ps[k].ReferenceQuestion? ==> ps[k].text == ref.value.input
  {
    var a := AnswerParts(sample.expected);
    var c := CategoryParts(sample.category);
    var rs := ReferenceParts(ref);
    var ps := PromptParts(sample, ref);
    assert ps == [Question(sample.input)] + a + c + rs + [Closing];
    forall k | 0 <= k < |ps|
      ensures ps[k].CategoryLine? <==> (sample.category != "" && k == 1 + |a|)
      ensures ps[k].ReferenceQuestion? <==> (ref.Some? && k == 1 + |a| + |c|)
    {
      if k == 0 {
      } else if k < 1 + |a| {
        assert ps[k] == a[k - 1];
      } else if k < 1 + |a| + |c| {
        assert ps[k] == c[k - 1 - |a|];
      } else if k < 1 + |a| + |c| + |rs| {
        assert ps[k] == rs[k - 1 - |a| - |c|];
      } else {
        assert ps[k] == Closing;
      }
    }
    if sample.category != "" {
      assert ps[1 + |a|].CategoryLine?;
    }
    if ref.Some? {
      assert ps[1 + |a| + |c|].ReferenceQuestion?;
    }
  }

  /** Sample `i` is paired with reference `i` when there is one. */
  function ReferenceFor(refs: seq<Sample>, i: nat): (ref: Option<Sample>)
    ensures ref.Some? <==> i < |refs|
    ensures ref.Some? ==> ref.value == refs[i]
  {
    if i < |refs| then Some(refs[i]) else None
  }

  // ---------------------------------------------------------------------------
  // computeMetrics

  function CorrectnessOf(r: SampleResult): real
  {
    match r.details.correctness case Some(v) => v case None => 0.0
  }

  function ClarityOf(r: SampleResult): real
  {
    match r.details.clarity case Some(v) => v case None => 0.0
  }

  function DifficultyMatchOf(r: SampleResult): real
  {
    match r.details.difficultyMatch case Some(v) => v case None => 0.0
  }

  function CompletenessOf(r: SampleResult): real
  {
    match r.details.completeness case Some(v) => v case None => 0.0
  }

  predicate IsExcellent(r: SampleResult)
  {
    r.score >= ExcellentMark
  }

  /** The summary of a non-empty result list, from its counters and totals. */
  function JudgeTotals(n: nat, successes: nat, excellent: nat, totalScore: real,
                       correctness: real, clarity: real, difficultyMatch: real, completeness: real): MetricsSummary
    requires n > 0
  {
    var m := n as real;
    EmptySummary.(
      accuracy := successes as real / m,
      averageScore := totalScore / m,
      passRate := successes as real / m,
      excellentRate := excellent as real / m,
      dimensionScores := map["correctness" := correctness / m, "clarity" := clarity / m,
                             "difficulty_match" := difficultyMatch / m, "completeness" := completeness / m],
      extra := JudgeExtra(n, successes, excellent))
  }

  /** The judge's summary: empty maps for no results; otherwise the pass and
      excellent rates, the mean score and the mean of each dimension over all
      results, a result without that detail counting 0. */
  function JudgeSummary(results: seq<SampleResult>): MetricsSummary
  {
    if results == [] then EmptySummary
    else JudgeTotals(|results|, Count(results, IsSuccess), Count(results, IsExcellent), Sum(results, ScoreOf),
                     Sum(results, CorrectnessOf), Sum(results, ClarityOf),
                     Sum(results, DifficultyMatchOf), Sum(results, CompletenessOf))
  }

  /** `computeMetrics`: one pass accumulating the totals, then the ratios. */
  method ComputeMetrics(results: seq<SampleResult>) returns (summary: MetricsSummary)
    ensures summary == JudgeSummary(results)
  {
    summary := EmptySummary;
    if |results| == 0 {
      return;
    }
    var totalCorrectness, totalClarity, totalDifficultyMatch, totalCompleteness := 0.0, 0.0, 0.0, 0.0;
    var totalScore := 0.0;
    var successCount, excellentCount := 0, 0;
    var i := 0;
    while i < |results|
      invariant 0 <= i <= |results|
      invariant totalCorrectness == Sum(results[..i], CorrectnessOf)
      invariant totalClarity == Sum(results[..i], ClarityOf)
      invariant totalDifficultyMatch == Sum(results[..i], DifficultyMatchOf)
      invariant totalCompleteness == Sum(results[..i], CompletenessOf)
      invariant totalScore == Sum(results[..i], ScoreOf)
      invariant successCount == Count(results[..i], IsSuccess)
      invariant excellentCount == Count(results[..i], IsExcellent)
    {
      var r := results[i];
      assert results[..i + 1][..i] == results[..i];
      totalCorrectness := totalCorrectness + CorrectnessOf(r);
      totalClarity := totalClarity + ClarityOf(r);
      totalDifficultyMatch := totalDifficultyMatch + DifficultyMatchOf(r);
      totalCompleteness := totalCompleteness + CompletenessOf(r);
      totalScore := totalScore + r.score;
      if r.success {
        successCount := successCount + 1;
      }
      if r.score >= 4.0 {
        excellentCount := excellentCount + 1;
      }
      i := i + 1;
    }
    assert results[..|results|] == results;
    summary := JudgeTotals(|results|, successCount, excellentCount, totalScore,
                           totalCorrectness, totalClarity, totalDifficultyMatch, totalCompleteness);
  }

  /** No results give empty maps and zero rates; otherwise the accuracy is
      the pass rate, both rates are shares of the results in [0, 1], the
      dimension map has exactly the four dimensions, and the counters are
      the counts of passing and excellent results. */
  lemma JudgeSummaryMeaning(results: seq<SampleResult>)
    ensures results == [] ==> JudgeSummary(results) == EmptySummary
    ensures results != [] ==>
      var s := JudgeSummary(results);
      && s.accuracy == s.passRate == Rate(Count(results, IsSuccess), |results|)
      && s.excellentRate == Rate(Count(results, IsExcellent), |results|)
      && 0.0 <= s.passRate <= 1.0 && 0.0 <= s.excellentRate <= 1.0
      && s.averageScore == Sum(results, ScoreOf) / |results| as real
      && s.dimensionScores.Keys == {"correctness", "clarity", "difficulty_match", "completeness"}
      && s.extra == JudgeExtra(|results|, Count(results, IsSuccess), Count(results, IsExcellent))
  {
    if results != [] {
      RateMeaning(Count(results, IsSuccess), |results|);
      RateMeaning(Count(results, IsExcellent), |results|);
    }
  }

  /** A result without a dimension's detail still counts in the division:
      the total stays the same but is divided by one more result. */
  lemma MissingDetailDilutes(results: seq<SampleResult>, r: SampleResult)
    requires results != [] && r.details.correctness.None?
    ensures JudgeSummary(results).dimensionScores["correctness"] == Sum(results, CorrectnessOf) / |results| as real
    ensures JudgeSummary(results + [r]).dimensionScores["correctness"]
            == Sum(results, CorrectnessOf) / (|results| + 1) as real
  {
    CorrectnessMean(results);
    CorrectnessMean(results + [r]);
    assert (results + [r])[..|results|] == results;
    assert Sum(results + [r], CorrectnessOf) == Sum(results, CorrectnessOf);
  }

  /** The correctness entry of a non-empty summary is the mean detail. */
  lemma CorrectnessMean(results: seq<SampleResult>)
    requires results != []
    ensures JudgeSummary(results).dimensionScores["correctness"] == Sum(results, CorrectnessOf) / |results| as real
  {
    TotalsCorrectness(|results|, Count(results, IsSuccess), Count(results, IsExcellent), Sum(results, ScoreOf),
                      Sum(results, CorrectnessOf), Sum(results, ClarityOf),
                      Sum(results, DifficultyMatchOf), Sum(results, CompletenessOf));
  }

  lemma TotalsCorrectness(n: nat, successes: nat, excellent: nat, totalScore: real,
                          correctness: real, clarity: real, difficultyMatch: real, completeness: real)
    requires n > 0
    ensures JudgeTotals(n, successes, excellent, totalScore, correctness, clarity, difficultyMatch, completeness)
              .dimensionScores["correctness"] == correctness / n as real
  {
  }

  /** Among judged results, the excellent ones are a subset of the passing
      ones, so the excellent rate never exceeds the pass rate. */
  lemma ExcellentWithinPass(results: seq<SampleResult>)
    requires forall r :: r in results ==> (IsExcellent(r) ==> IsSuccess(r))
    ensures Count(results, IsExcellent) <= Count(results, IsSuccess)
    ensures JudgeSummary(results).excellentRate <= JudgeSummary(results).passRate
  {
    CountMonotone(results, IsExcellent, IsSuccess);
    if results != [] {
      var n := |results| as real;
      assert JudgeSummary(results).excellentRate == Count(results, IsExcellent) as real / n;
      assert JudgeSummary(results).passRate == Count(results, IsSuccess) as real / n;
      DivMonotone(Count(results, IsExcellent) as real, Count(results, IsSuccess) as real, n);
    }
  }

  lemma DivMonotone(a: real, b: real, m: real)
    requires a <= b && m > 0.0
    ensures a / m <= b / m
  {
  }

  // ---------------------------------------------------------------------------
  // Evaluate

  /** How sample `k` is scored: paired with its reference `ref`, its prompt
      is sent to the judge as call `k`, and the reply is rated. */
  function Judging(decode: string -> Option<Json>, judge: (nat, string) -> Outcome):
      (score: (nat, Sample, Option<Sample>) -> SampleResult)
  {
    (k: nat, sample: Sample, ref: Option<Sample>) => JudgeOutcome(decode, sample, judge(k, JudgePrompt(sample, ref)))
  }

  /** The results of the first `n` samples, in order, each scored by `score`
      with its reference. */
  function Outcomes(samples: seq<Sample>, refs: seq<Sample>, n: nat,
                    score: (nat, Sample, Option<Sample>) -> SampleResult): (rs: seq<SampleResult>)
    requires n <= |samples|
    ensures |rs| == n
  {
    if n == 0 then []
    else Outcomes(samples, refs, n - 1, score) + [score(n - 1, samples[n - 1], ReferenceFor(refs, n - 1))]
  }

  /** Result `k` is the score of sample `k`, whatever the number of samples
      evaluated beyond it. */
  lemma {:induction false} OutcomeAt(samples: seq<Sample>, refs: seq<Sample>, n: nat,
                                     score: (nat, Sample, Option<Sample>) -> SampleResult, k: nat)
    requires k < n <= |samples|
    ensures Outcomes(samples, refs, n, score)[k] == score(k, samples[k], ReferenceFor(refs, k))
    decreases n
  {
    if k < n - 1 {
      OutcomeAt(samples, refs, n - 1, score, k);
    }
  }

  lemma {:induction false} OutcomesPrefix(samples: seq<Sample>, refs: seq<Sample>, m: nat, n: nat,
                                          score: (nat, Sample, Option<Sample>) -> SampleResult)
    requires m <= n <= |samples|
    ensures Outcomes(samples, refs, m, score) == Outcomes(samples, refs, n, score)[..m]
    decreases n
  {
    if m < n {
      OutcomesPrefix(samples, refs, m, n - 1, score);
      var prev := Outcomes(samples, refs, n - 1, score);
      assert Outcomes(samples, refs, n, score)[..n - 1] == prev;
      assert prev[..m] == Outcomes(samples, refs, n, score)[..m];
    }
  }

  /** `rs` holds, for each of its positions `k`, the score of sample `k`. */
  ghost predicate ScoredAs(rs: seq<SampleResult>, samples: seq<Sample>, refs: seq<Sample>,
                           score: (nat, Sample, Option<Sample>) -> SampleResult)
  {
    |rs| <= |samples| &&
    forall k {:trigger score(k, samples[k], ReferenceFor(refs, k))} :: 0 <= k < |rs| ==>
      rs[k] == score(k, samples[k], ReferenceFor(refs, k))
  }

  lemma OutcomesScored(samples: seq<Sample>, refs: seq<Sample>, n: nat,
                       score: (nat, Sample, Option<Sample>) -> SampleResult)
    requires n <= |samples|
    ensures ScoredAs(Outcomes(samples, refs, n, score), samples, refs, score)
  {
    forall k | 0 <= k < n
      ensures Outcomes(samples, refs, n, score)[k] == score(k, samples[k], ReferenceFor(refs, k))
    {
      OutcomeAt(samples, refs, n, score, k);
    }
  }

  /** Every judged result that is excellent passes, so the summary of an
      evaluation never rates more excellent results than passing ones. */
  lemma OutcomesExcellentPass(decode: string -> Option<Json>, samples: seq<Sample>, refs: seq<Sample>,
                              judge: (nat, string) -> Outcome, n: nat)
    requires n <= |samples|
    ensures forall r :: r in Outcomes(samples, refs, n, Judging(decode, judge)) ==> (IsExcellent(r) ==> IsSuccess(r))
    ensures JudgeSummary(Outcomes(samples, refs, n, Judging(decode, judge))).excellentRate
            <= JudgeSummary(Outcomes(samples, refs, n, Judging(decode, judge))).passRate
  {
    var rs := Outcomes(samples, refs, n, Judging(decode, judge));
    forall r | r in rs
      ensures IsExcellent(r) ==> IsSuccess(r)
    {
      var k :| 0 <= k < n && rs[k] == r;
      OutcomeAt(samples, refs, n, Judging(decode, judge), k);
      var ref := ReferenceFor(refs, k);
      ExcellentPasses(decode, samples[k], judge(k, JudgePrompt(samples[k], ref)));
    }
    ExcellentWithinPass(rs);
  }

  /** One step of the loop: the result of sample `i` is the one `expected`
      holds for it. */
  method EvaluateNext(decode: string -> Option<Json>, samples: seq<Sample>, refs: seq<Sample>,
                      judge: (nat, string) -> Outcome, i: nat, sample: Sample,
                      ghost score: (nat, Sample, Option<Sample>) -> SampleResult, ghost expected: seq<SampleResult>)
      returns (sr: SampleResult)
    requires i < |expected| <= |samples| && sample == samples[i]
    requires score == Judging(decode, judge) && ScoredAs(expected, samples, refs, score)
    ensures sr == expected[i]
  {
    var ref: Option<Sample> := None;
    if i < |refs| {
      ref := Some(refs[i]);
    }
    sr := EvaluateSample(decode, sample, ref, p => judge(i, p));
    assert sr == score(i, samples[i], ReferenceFor(refs, i));
  }

  /** `Evaluate`. The configuration is the defaults with `opts` applied; the
      dataset is loaded first (a load error, including a scanner error, ends
      the evaluation with no result); then the first `SamplesToEvaluate`
      samples are judged in order, each result appended and each pass
      counted, the callback told `(i + 1, total)` after each. A context
      cancelled before sample `cancelAt` returns the partial result with the
      cancellation error; otherwise the accuracy and the summary are filled
      in. */
  method Evaluate(ds: DatagenDataset.Dataset, opts: seq<EvalOption>, providerName: string,
                  decode: string -> Option<Json>, refs: seq<Sample>, judge: (nat, string) -> Outcome,
                  fileExists: bool, file: Result<LineFile>, loadCancelAt: Option<nat>, cancelAt: Option<nat>)
      returns (result: Option<EvalResult>, err: Option<string>, progress: seq<(nat, nat)>)
    modifies ds
    ensures ds.dataPath == old(ds.dataPath)
    ensures old(ds.loaded) ==> ds.samples == old(ds.samples) && ds.loaded
    ensures !old(ds.loaded) && (!fileExists || file.Err?) ==> ds.samples == old(ds.samples) && !ds.loaded
    ensures !old(ds.loaded) && fileExists && file.Ok? ==>
      var rows := file.value.rows;
      if loadCancelAt.Some? && loadCancelAt.value < |rows| then
        ds.samples == old(ds.samples) + DatagenDataset.Parsed(Items(rows[..loadCancelAt.value])) && !ds.loaded
      else
        ds.samples == old(ds.samples) + DatagenDataset.Parsed(Items(rows)) && ds.loaded
    ensures var loadErr :=
        if old(ds.loaded) then None
        else if !fileExists then Some(DatagenDataset.FileMissing + old(ds.dataPath))
        else if file.Err? then Some(file.error)
        else if loadCancelAt.Some? && loadCancelAt.value < |file.value.rows| then Some(Canceled)
        else file.value.readError;
      && (result.None? <==> loadErr.Some?)
      && (loadErr.Some? ==> err == Some(DatasetLoadFailed + loadErr.value) && progress == [])
    ensures result.Some? ==>
      var config := AppliedAll(DefaultConfig, opts);
      var total := SamplesToEvaluate(config.maxSamples, |ds.samples|);
      var done := Evaluated(total, cancelAt);
      var r := result.value;
      && r.benchmarkName == JudgeName && r.agentName == providerName
      && r.totalSamples == total
      && r.detailedResults == Outcomes(ds.samples, refs, done, Judging(decode, judge))
      && r.successCount == Successes(r.detailedResults)
      && progress == ProgressReports(config.progressCallback, done, total)
      && r.categoryMetrics == map[] && r.levelMetrics == map[]
      && (done < total ==> err == Some(Canceled) && r.overallAccuracy == 0.0 && r.metrics.None?)
      && (done == total ==>
            err.None? && r.overallAccuracy == Rate(r.successCount, total)
            && r.metrics == Some(JudgeSummary(r.detailedResults)))
  {
    var config := new EvalConfig.Default();
    config.ApplyOptions(opts);
    var loadErr := ds.Load(fileExists, file, loadCancelAt);
    if loadErr.Some? {
      return None, Some(DatasetLoadFailed + loadErr.value), [];
    }
    var total := SamplesToEvaluate(config.maxSamples, ds.Len());
    ghost var score := Judging(decode, judge);
    ghost var expected := Outcomes(ds.samples, refs, total, score);
    OutcomesScored(ds.samples, refs, total, score);
    OutcomesPrefix(ds.samples, refs, Evaluated(total, cancelAt), total, score);
    var r;
    r, err, progress := RunSamples(ds, decode, refs, judge, total, config.progressCallback, providerName,
                                   cancelAt, score, expected);
    if err.None? {
      var summary := ComputeMetrics(r.detailedResults);
      r := r.(overallAccuracy := Rate(r.successCount, r.totalSamples), metrics := Some(summary));
    }
    result := Some(r);
  }

  /** The loop of `Evaluate`, once the dataset is loaded. */
  method RunSamples(ds: DatagenDataset.Dataset, decode: string -> Option<Json>, refs: seq<Sample>,
                    judge: (nat, string) -> Outcome, total: nat, cb: Option<nat>, providerName: string,
                    cancelAt: Option<nat>, ghost score: (nat, Sample, Option<Sample>) -> SampleResult,
                    ghost expected: seq<SampleResult>)
      returns (r: EvalResult, err: Option<string>, progress: seq<(nat, nat)>)
    requires total == |expected| <= |ds.samples|
    requires score == Judging(decode, judge) && ScoredAs(expected, ds.samples, refs, score)
    ensures var done := Evaluated(total, cancelAt);
      && r.benchmarkName == JudgeName && r.agentName == providerName
      && r.totalSamples == total
      && r.detailedResults == expected[..done]
      && r.successCount == Successes(r.detailedResults)
      && progress == ProgressReports(cb, done, total)
      && r.overallAccuracy == 0.0 && r.categoryMetrics == map[] && r.levelMetrics == map[] && r.metrics.None?
      && (err.None? <==> done == total) && (err.Some? ==> err.value == Canceled)
  {
    r := EvalResult(JudgeName, providerName, total, 0, 0.0, map[], map[], [], None);
    progress := [];
    var i := 0;
    while i < total
      invariant 0 <= i <= total
      invariant cancelAt.Some? ==> i <= cancelAt.value
      invariant r.benchmarkName == JudgeName && r.agentName == providerName && r.totalSamples == total
      invariant r.overallAccuracy == 0.0 && r.categoryMetrics == map[] && r.levelMetrics == map[] && r.metrics.None?
      invariant r.detailedResults == expected[..i]
      invariant r.successCount == Successes(r.detailedResults)
      invariant progress == ProgressReports(cb, i, total)
    {
      if cancelAt == Some(i) {
        return r, Some(Canceled), progress;
      }
      var sample := ds.Get(i).value;
      var sr := EvaluateNext(decode, ds.samples, refs, judge, i, sample, score, expected);
      SuccessesSnoc(r.detailedResults, sr);
      assert expected[..i + 1] == expected[..i] + [sr];
      r := r.(detailedResults := r.detailedResults + [sr],
              successCount := if sr.success then r.successCount + 1 else r.successCount);
      if cb.Some? {
        progress := progress + [(i + 1, total)];
      }
      i := i + 1;
    }
    err := None;
  }
}
