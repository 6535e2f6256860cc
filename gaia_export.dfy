/** The GAIA exporter: the submission file (one `{task_id, model_answer}`
    entry per result) and the level table of the Markdown report, which
    lists levels 1 to 3 in ascending order. Writing is a collaborator: the
    model produces the entries written, and the encoder may fail at one. */
module GaiaExport {
  import opened Wrappers
  import opened EvalTypes
  import GaiaAnswers
  import GaiaEvaluator

  /** `ExportEntry` of the official submission format. */
  datatype ExportEntry = ExportEntry(taskId: string, modelAnswer: string)

  const WriteFailed := "写入条目失败: "

  /** The submitted answer: the predicted answer when it is a string (even an
      empty one), else a non-empty agent response, else "". */
  function ModelAnswer(r: SampleResult): string
  {
    if r.predicted.Answer? then r.predicted.text
    else if r.agentResponse != "" then r.agentResponse
    else ""
  }

  /** The entry of one result. */
  function Entry(r: SampleResult): ExportEntry
  {
    ExportEntry(r.sampleId, ModelAnswer(r))
  }

  /** The entries of an export: one per result, in order. */
  function Entries(results: seq<SampleResult>): (es: seq<ExportEntry>)
    ensures |es| == |results|
  {
    seq(|results|, i requires 0 <= i < |results| => Entry(results[i]))
  }

  /** `Export`'s loop: each result's entry built and written in turn. When the
      encoder fails on entry `failAt` with `message`, the entries before it
      have been written and the loop stops with the write error. */
  method Export(results: seq<SampleResult>, failAt: Option<nat>, message: string)
      returns (written: seq<ExportEntry>, err: Option<string>)
    ensures failAt.Some? && failAt.value < |results| ==>
      written == Entries(results)[..failAt.value] && err == Some(WriteFailed + message)
    ensures failAt.None? || failAt.value >= |results| ==> written == Entries(results) && err.None?
  {
    written := [];
    var i := 0;
    while i < |results|
      invariant 0 <= i <= |results|
      invariant failAt.Some? ==> i <= failAt.value
      invariant written == Entries(results)[..i]
    {
      var sr := results[i];
      var entry := ExportEntry(sr.sampleId, "");
      if sr.predicted.Answer? {
        entry := entry.(modelAnswer := sr.predicted.text);
      } else if sr.agentResponse != "" {
        entry := entry.(modelAnswer := sr.agentResponse);
      }
      if failAt == Some(i) {
        return written, Some(WriteFailed + message);
      }
      written := written + [entry];
      i := i + 1;
    }
    err := None;
  }

  /** For a result of the GAIA evaluator, the submitted answer is the answer
      extracted from the agent's response, and "" when the agent failed; the
      entry carries the sample's ID. */
  lemma SubmittedAnswer(sample: Sample, outcome: Outcome)
    ensures Entry(GaiaEvaluator.SampleOutcome(sample, outcome)).taskId == sample.id
    ensures outcome.Responded? ==>
      Entry(GaiaEvaluator.SampleOutcome(sample, outcome)).modelAnswer == GaiaAnswers.Extracted(outcome.response)
    ensures outcome.Failed? ==> Entry(GaiaEvaluator.SampleOutcome(sample, outcome)).modelAnswer == ""
  {
    GaiaEvaluator.SampleOutcomeMeaning(sample, outcome);
  }

  /** An empty predicted string is submitted as it is, even when the agent
      responded. */
  lemma EmptyAnswerSubmitted(r: SampleResult)
    requires r.predicted == Answer("") && r.agentResponse != ""
    ensures ModelAnswer(r) == ""
  {
  }

  // ---------------------------------------------------------------------------
  // The level table of the report

  /** The levels the report's table can list, in the order it lists them. */
  const ReportLevels: seq<int> := [1, 2, 3]

  /** The rows of the level table: the levels among `levels` that are in the
      map, with their metrics, in order. */
  function LevelRows(m: map<int, LevelMetrics>, levels: seq<int>): seq<(int, LevelMetrics)>
  {
    if levels == [] then []
    else
      var last := levels[|levels| - 1];
      LevelRows(m, levels[..|levels| - 1]) + (if last in m then [(last, m[last])] else [])
  }

  /** The loop `for level := 1; level <= 3; level++` of the report. */
  method LevelTable(m: map<int, LevelMetrics>) returns (rows: seq<(int, LevelMetrics)>)
    ensures rows == LevelRows(m, ReportLevels)
  {
    rows := [];
    var level := 1;
    while level <= 3
      invariant 1 <= level <= 4
      invariant rows == LevelRows(m, ReportLevels[..level - 1])
    {
      assert ReportLevels[..level][..level - 1] == ReportLevels[..level - 1];
      if level in m {
        rows := rows + [(level, m[level])];
      }
      level := level + 1;
    }
    assert ReportLevels[..3] == ReportLevels;
  }

  /** The table lists each of the levels 1, 2 and 3 that the map holds, with
      its metrics, strictly ascending; any other level is left out. */
  lemma LevelTableMeaning(m: map<int, LevelMetrics>)
    ensures Listed(LevelRows(m, ReportLevels), m, 3)
  {
    LevelRowsUnrolled(m);
    ThreeRowsMeaning(m);
  }

  /** The three optional rows in a row: each present level once, with its
      metrics, ascending. */
  lemma ThreeRowsMeaning(m: map<int, LevelMetrics>)
    ensures Listed(Row(m, 1) + Row(m, 2) + Row(m, 3), m, 3)
  {
    RowAppended([], m, 1);
    RowAppended(Row(m, 1), m, 2);
    RowAppended(Row(m, 1) + Row(m, 2), m, 3);
  }

  /** `rows` lists the levels of `m` from 1 to `upto`, each with its metrics,
      ascending. */
  predicate Listed(rows: seq<(int, LevelMetrics)>, m: map<int, LevelMetrics>, upto: int)
  {
    && (forall k :: 0 <= k < |rows| ==> 1 <= rows[k].0 <= upto && rows[k].0 in m && rows[k].1 == m[rows[k].0])
    && (forall j, k :: 0 <= j < k < |rows| ==> rows[j].0 < rows[k].0)
    && (forall level :: 1 <= level <= upto && level in m ==> exists k :: 0 <= k < |rows| && rows[k].0 == level)
  }

  /** Appending the row of the next level extends the listing by that level. */
  lemma RowAppended(rows: seq<(int, LevelMetrics)>, m: map<int, LevelMetrics>, level: int)
    requires 1 <= level && Listed(rows, m, level - 1)
    ensures Listed(rows + Row(m, level), m, level)
  {
    if level in m {
      PresentRowAppended(rows, m, level);
    } else {
      assert rows + Row(m, level) == rows;
    }
  }

  /** The case of a level the map holds: its row goes last. */
  lemma PresentRowAppended(rows: seq<(int, LevelMetrics)>, m: map<int, LevelMetrics>, level: int)
    requires 1 <= level && level in m && Listed(rows, m, level - 1)
    ensures Listed(rows + [(level, m[level])], m, level)
  {
    var next := rows + [(level, m[level])];
    forall k | 0 <= k < |next|
      ensures 1 <= next[k].0 <= level && next[k].0 in m && next[k].1 == m[next[k].0]
    {
      if k < |rows| {
        assert next[k] == rows[k];
      }
    }
    forall j, k | 0 <= j < k < |next| ensures next[j].0 < next[k].0 {
      assert next[j] == rows[j];
      if k < |rows| {
        assert next[k] == rows[k];
      }
    }
    forall l | 1 <= l <= level && l in m ensures exists k :: 0 <= k < |next| && next[k].0 == l {
      if l < level {
        var k :| 0 <= k < |rows| && rows[k].0 == l;
        assert next[k] == rows[k];
      } else {
        assert next[|rows|].0 == l;
      }
    }
  }


  /** The row of one level: present exactly when the map holds the level. */
  function Row(m: map<int, LevelMetrics>, level: int): seq<(int, LevelMetrics)>
  {
    if level in m then [(level, m[level])] else []
  }

  /** The report's three levels, unrolled. */
  lemma LevelRowsUnrolled(m: map<int, LevelMetrics>)
    ensures LevelRows(m, ReportLevels) == Row(m, 1) + Row(m, 2) + Row(m, 3)
  {
    var ls := ReportLevels;
    assert ls[..2] == [1, 2] && ls[..2][..1] == [1] && [1][..0] == [];
    assert LevelRows(m, [1]) == Row(m, 1);
    assert LevelRows(m, [1, 2]) == Row(m, 1) + Row(m, 2);
  }
}
