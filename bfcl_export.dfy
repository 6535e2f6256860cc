/** The BFCL exporter: one JSONL entry per result, the result formatted for
    the official format (the extracted calls as `{name, arguments}` objects,
    else the agent's response, else the prediction as it is), and an
    optional inference log. Writing the file is a collaborator: the model
    produces the entries written, and the encoder may fail at one entry. */
module BfclExport {
  import opened Wrappers
  import opened JsonValues
  import opened EvalTypes

  /** One `{"name": ..., "arguments": ...}` object of the output format. */
  datatype CallOutput = CallOutput(name: string, arguments: map<string, Json>)

  /** What an entry's `result` holds. */
  datatype Formatted = CallList(calls: seq<CallOutput>) | Response(text: string) | Raw(predicted: Predicted)

  /** One message of an inference log. */
  datatype LogEntry = LogEntry(role: string, content: string)

  /** `ExportEntry`; an empty `inferenceLog` is the omitted field. */
  datatype ExportEntry = ExportEntry(id: string, result: Formatted, inferenceLog: seq<LogEntry>)

  const WriteFailed := "写入条目失败: "

  // ---------------------------------------------------------------------------
  // formatResult

  function ToOutput(call: FunctionCall): CallOutput
  {
    CallOutput(call.name, call.arguments)
  }

  /** The output objects of a call list, one per call, in order. */
  function CallsOutput(calls: seq<FunctionCall>): (out: seq<CallOutput>)
    ensures |out| == |calls|
  {
    seq(|calls|, i requires 0 <= i < |calls| => ToOutput(calls[i]))
  }

  /** The calls an output list describes. */
  function CallsOf(out: seq<CallOutput>): (calls: seq<FunctionCall>)
    ensures |calls| == |out|
  {
    seq(|out|, i requires 0 <= i < |out| => FunctionCall(out[i].name, out[i].arguments))
  }

  /** `convertCallsToOutput`: a slice of the calls' length filled by index. */
  method ConvertCallsToOutput(calls: seq<FunctionCall>) returns (output: seq<CallOutput>)
    ensures output == CallsOutput(calls)
  {
    var buffer := new CallOutput[|calls|](_ => CallOutput("", map[]));
    var i := 0;
    while i < |calls|
      invariant 0 <= i <= |calls|
      invariant forall k :: 0 <= k < i ==> buffer[k] == ToOutput(calls[k])
    {
      buffer[i] := CallOutput(calls[i].name, calls[i].arguments);
      i := i + 1;
    }
    output := buffer[..];
  }

  /** The output lists lose nothing: reading them back gives the calls. */
  lemma CallsOutputRoundTrip(calls: seq<FunctionCall>)
    ensures CallsOf(CallsOutput(calls)) == calls
  {
  }

  /** The `result` of an entry: the calls when the prediction is a call list,
      else the agent's response when there is one, else the prediction. */
  function FormattedOf(r: SampleResult): Formatted
  {
    match r.predicted
    case Calls(calls) => CallList(CallsOutput(calls))
    case _ => if r.agentResponse != "" then Response(r.agentResponse) else Raw(r.predicted)
  }

  /** `formatResult`. */
  method FormatResult(r: SampleResult) returns (f: Formatted)
    ensures f == FormattedOf(r)
  {
    if r.predicted.Calls? {
      var output := ConvertCallsToOutput(r.predicted.calls);
      return CallList(output);
    }
    if r.agentResponse != "" {
      return Response(r.agentResponse);
    }
    return Raw(r.predicted);
  }

  /** A call list is exported as the same calls in the same order, whatever
      the response; any other prediction gives way to a non-empty response;
      the raw prediction appears only when there is no response, and is then
      never a call list. */
  lemma FormattedMeaning(r: SampleResult)
    ensures r.predicted.Calls? <==> FormattedOf(r).CallList?
    ensures r.predicted.Calls? ==> CallsOf(FormattedOf(r).calls) == r.predicted.calls
    ensures FormattedOf(r).Response? <==> !r.predicted.Calls? && r.agentResponse != ""
    ensures FormattedOf(r).Response? ==> FormattedOf(r).text == r.agentResponse
    ensures FormattedOf(r).Raw? ==> r.agentResponse == "" && FormattedOf(r).predicted == r.predicted
  {
    if r.predicted.Calls? {
      CallsOutputRoundTrip(r.predicted.calls);
    }
  }

  // ---------------------------------------------------------------------------
  // buildInferenceLog

  /** The input recorded in a result's details, when it is a non-empty string. */
  predicate HasInput(r: SampleResult)
  {
    r.details.input.Some? && r.details.input.value != ""
  }

  /** The inference log of a result: the user's input, then the assistant's
      response, each only when present. */
  function InferenceLog(r: SampleResult): seq<LogEntry>
  {
    (if HasInput(r) then [LogEntry("user", r.details.input.value)] else [])
    + (if r.agentResponse != "" then [LogEntry("assistant", r.agentResponse)] else [])
  }

  /** `buildInferenceLog`: an empty log, appended to. */
  method BuildInferenceLog(r: SampleResult) returns (log: seq<LogEntry>)
    ensures log == InferenceLog(r)
  {
    log := [];
    if r.details.input.Some? && r.details.input.value != "" {
      log := log + [LogEntry("user", r.details.input.value)];
    }
    if r.agentResponse != "" {
      log := log + [LogEntry("assistant", r.agentResponse)];
    }
  }

  /** The log has at most two messages; the user's comes first and exactly
      when the input is a non-empty string; the assistant's comes last and
      exactly when there is a response. */
  lemma InferenceLogShape(r: SampleResult)
    ensures |InferenceLog(r)| <= 2
    ensures |InferenceLog(r)| == (if HasInput(r) then 1 else 0) + (if r.agentResponse != "" then 1 else 0)
    ensures HasInput(r) ==> InferenceLog(r)[0] == LogEntry("user", r.details.input.value)
    ensures r.agentResponse != "" ==> InferenceLog(r)[|InferenceLog(r)| - 1] == LogEntry("assistant", r.agentResponse)
    ensures forall k :: 0 <= k < |InferenceLog(r)| ==> (InferenceLog(r)[k].role == "user" <==> k == 0 && HasInput(r))
  {
  }

  // ---------------------------------------------------------------------------
  // Export

  /** The entry of one result: its ID, its formatted result and, when the
      exporter includes logs and the agent responded, its inference log. */
  function Entry(includeInferenceLog: bool, r: SampleResult): ExportEntry
  {
    ExportEntry(r.sampleId, FormattedOf(r),
                if includeInferenceLog && r.agentResponse != "" then InferenceLog(r) else [])
  }

  /** The entries of an export: one per result, in order. */
  function Entries(includeInferenceLog: bool, results: seq<SampleResult>): (es: seq<ExportEntry>)
    ensures |es| == |results|
  {
    seq(|results|, i requires 0 <= i < |results| => Entry(includeInferenceLog, results[i]))
  }

  /** `Export`'s loop: each result's entry built and written in turn. When the
      encoder fails on entry `failAt` with `message`, the entries before it
      have been written and the loop stops with the write error. */
  method Export(includeInferenceLog: bool, results: seq<SampleResult>, failAt: Option<nat>, message: string)
      returns (written: seq<ExportEntry>, err: Option<string>)
    ensures failAt.Some? && failAt.value < |results| ==>
      written == Entries(includeInferenceLog, results)[..failAt.value] && err == Some(WriteFailed + message)
    ensures failAt.None? || failAt.value >= |results| ==>
      written == Entries(includeInferenceLog, results) && err.None?
  {
    written := [];
    var i := 0;
    while i < |results|
      invariant 0 <= i <= |results|
      invariant failAt.Some? ==> i <= failAt.value
      invariant written == Entries(includeInferenceLog, results)[..i]
    {
      var sr := results[i];
      var result := FormatResult(sr);
      var entry := ExportEntry(sr.sampleId, result, []);
      if includeInferenceLog && sr.agentResponse != "" {
        var log := BuildInferenceLog(sr);
        entry := entry.(inferenceLog := log);
      }
      if failAt == Some(i) {
        return written, Some(WriteFailed + message);
      }
      written := written + [entry];
      i := i + 1;
    }
    err := None;
  }

  /** Entry `k` belongs to result `k`; it carries a log exactly when logs are
      included and the agent responded, and that log then ends with the
      response. */
  lemma EntriesMeaning(includeInferenceLog: bool, results: seq<SampleResult>, k: nat)
    requires k < |results|
    ensures Entries(includeInferenceLog, results)[k].id == results[k].sampleId
    ensures Entries(includeInferenceLog, results)[k].result == FormattedOf(results[k])
    ensures Entries(includeInferenceLog, results)[k].inferenceLog != [] <==>
      includeInferenceLog && results[k].agentResponse != ""
    ensures Entries(includeInferenceLog, results)[k].inferenceLog != [] ==>
      var log := Entries(includeInferenceLog, results)[k].inferenceLog;
      log[|log| - 1] == LogEntry("assistant", results[k].agentResponse)
  {
    InferenceLogShape(results[k]);
  }

  /** The entries of two result lists exported one after the other are the
      entries of the joined list. */
  lemma EntriesConcat(includeInferenceLog: bool, xs: seq<SampleResult>, ys: seq<SampleResult>)
    ensures Entries(includeInferenceLog, xs + ys) == Entries(includeInferenceLog, xs) + Entries(includeInferenceLog, ys)
  {
    var l := Entries(includeInferenceLog, xs + ys);
    var r := Entries(includeInferenceLog, xs) + Entries(includeInferenceLog, ys);
    forall k | 0 <= k < |l|
      ensures l[k] == r[k]
    {
      if k < |xs| {
        assert (xs + ys)[k] == xs[k];
      } else {
        assert (xs + ys)[k] == ys[k - |xs|];
      }
    }
  }
}
