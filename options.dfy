/** Evaluation configuration: the defaults, the functional options that
    overwrite one field each, and how many samples an evaluation visits. */
module Options {
  import opened Wrappers

  /** Five minutes as a `time.Duration` (nanoseconds). */
  const FiveMinutes: int := 300_000_000_000

  /** A snapshot of the configuration's fields. The progress callback is a Go
      function; the model keeps only an identity for it, None being nil. */
  datatype ConfigValue = ConfigValue(
    maxSamples: int,
    timeout: int,
    progressCallback: Option<nat>,
    saveIntermediateResults: bool,
    outputDir: string,
    verbose: bool)

  /** The values `DefaultEvalConfig` fills in. */
  const DefaultConfig := ConfigValue(0, FiveMinutes, None, false, "./evaluation_results", false)

  /** The functional options, one per `With*` constructor. */
  datatype EvalOption =
    | WithMaxSamples(n: int)
    | WithTimeout(d: int)
    | WithProgressCallback(callback: Option<nat>)
    | WithSaveIntermediateResults(save: bool)
    | WithOutputDir(dir: string)
    | WithVerbose(verbose: bool)

  /** The configuration fields, so that properties can talk about "the field an
      option sets" and "every other field". */
  datatype Field = MaxSamples | Timeout | ProgressCallback | SaveIntermediateResults | OutputDir | Verbose

  datatype FieldValue = IntValue(i: int) | CallbackValue(cb: Option<nat>) | BoolValue(b: bool) | TextValue(t: string)

  function Read(c: ConfigValue, f: Field): FieldValue
  {
    match f
    case MaxSamples => IntValue(c.maxSamples)
    case Timeout => IntValue(c.timeout)
    case ProgressCallback => CallbackValue(c.progressCallback)
    case SaveIntermediateResults => BoolValue(c.saveIntermediateResults)
    case OutputDir => TextValue(c.outputDir)
    case Verbose => BoolValue(c.verbose)
  }

  /** The field an option sets. */
  function Target(o: EvalOption): Field
  {
    match o
    case WithMaxSamples(_) => MaxSamples
    case WithTimeout(_) => Timeout
    case WithProgressCallback(_) => ProgressCallback
    case WithSaveIntermediateResults(_) => SaveIntermediateResults
    case WithOutputDir(_) => OutputDir
    case WithVerbose(_) => Verbose
  }

  /** The value an option stores. */
  function Payload(o: EvalOption): FieldValue
  {
    match o
    case WithMaxSamples(n) => IntValue(n)
    case WithTimeout(d) => IntValue(d)
    case WithProgressCallback(cb) => CallbackValue(cb)
    case WithSaveIntermediateResults(b) => BoolValue(b)
    case WithOutputDir(d) => TextValue(d)
    case WithVerbose(v) => BoolValue(v)
  }

  /** The configuration after one option has run. */
  function Applied(c: ConfigValue, o: EvalOption): ConfigValue
  {
    match o
    case WithMaxSamples(n) => c.(maxSamples := n)
    case WithTimeout(d) => c.(timeout := d)
    case WithProgressCallback(cb) => c.(progressCallback := cb)
    case WithSaveIntermediateResults(b) => c.(saveIntermediateResults := b)
    case WithOutputDir(d) => c.(outputDir := d)
    case WithVerbose(v) => c.(verbose := v)
  }

  /** The configuration after running the options left to right. */
  function AppliedAll(c: ConfigValue, opts: seq<EvalOption>): ConfigValue
    decreases |opts|
  {
    if opts == [] then c else AppliedAll(Applied(c, opts[0]), opts[1..])
  }

  /** A setter stores its value in its own field and changes no other field. */
  lemma SetterChangesOnlyItsField(c: ConfigValue, o: EvalOption)
    ensures Read(Applied(c, o), Target(o)) == Payload(o)
    ensures forall f :: f != Target(o) ==> Read(Applied(c, o), f) == Read(c, f)
  {
  }

  /** A field that no option targets keeps its value. */
  lemma {:induction false} UntouchedFieldKept(c: ConfigValue, opts: seq<EvalOption>, f: Field)
    requires forall j :: 0 <= j < |opts| ==> Target(opts[j]) != f
    ensures Read(AppliedAll(c, opts), f) == Read(c, f)
    decreases |opts|
  {
    if opts != [] {
      SetterChangesOnlyItsField(c, opts[0]);
      UntouchedFieldKept(Applied(c, opts[0]), opts[1..], f);
    }
  }

  /** The last option that targets a field decides its value. */
  lemma {:induction false} LastOptionWins(c: ConfigValue, opts: seq<EvalOption>, i: nat)
    requires i < |opts|
    requires forall j :: i < j < |opts| ==> Target(opts[j]) != Target(opts[i])
    ensures Read(AppliedAll(c, opts), Target(opts[i])) == Payload(opts[i])
    decreases |opts|
  {
    if i == 0 {
      SetterChangesOnlyItsField(c, opts[0]);
      UntouchedFieldKept(Applied(c, opts[0]), opts[1..], Target(opts[0]));
    } else {
      LastOptionWins(Applied(c, opts[0]), opts[1..], i - 1);
    }
  }

  /** The configuration object options mutate in place. */
  class EvalConfig {
    var maxSamples: int
    var timeout: int
    var progressCallback: Option<nat>
    var saveIntermediateResults: bool
    var outputDir: string
    var verbose: bool

    function Value(): ConfigValue
      reads this
    {
      ConfigValue(maxSamples, timeout, progressCallback, saveIntermediateResults, outputDir, verbose)
    }

    /** `DefaultEvalConfig`. */
    constructor Default()
      ensures Value() == DefaultConfig
      ensures maxSamples == 0 && timeout == FiveMinutes && progressCallback.None?
      ensures !saveIntermediateResults && outputDir == "./evaluation_results" && !verbose
    {
      maxSamples := 0;
      timeout := FiveMinutes;
      progressCallback := None;
      saveIntermediateResults := false;
      outputDir := "./evaluation_results";
      verbose := false;
    }

    /** Running one option closure on the configuration. */
    method Apply(o: EvalOption)
      modifies this
      ensures Value() == Applied(old(Value()), o)
    {
      match o {
        case WithMaxSamples(n) => maxSamples := n;
        case WithTimeout(d) => timeout := d;
        case WithProgressCallback(cb) => progressCallback := cb;
        case WithSaveIntermediateResults(b) => saveIntermediateResults := b;
        case WithOutputDir(d) => outputDir := d;
        case WithVerbose(v) => verbose := v;
      }
    }

    /** `ApplyOptions`: the options run in order. */
    method ApplyOptions(opts: seq<EvalOption>)
      modifies this
      ensures Value() == AppliedAll(old(Value()), opts)
    {
      var i := 0;
      while i < |opts|
        invariant 0 <= i <= |opts|
        invariant AppliedAll(Value(), opts[i..]) == AppliedAll(old(Value()), opts)
      {
        assert opts[i..][1..] == opts[i + 1..];
        Apply(opts[i]);
        i := i + 1;
      }
    }
  }

  /** The number of samples an evaluation visits: the dataset length, capped by
      `MaxSamples` when that is positive (0, or a negative value, means no cap). */
  function SamplesToEvaluate(maxSamples: int, len: nat): (n: nat)
    ensures n <= len
    ensures maxSamples <= 0 ==> n == len
    ensures maxSamples > 0 ==> n <= maxSamples && (n < len ==> n == maxSamples) && (n < maxSamples ==> n == len)
  {
    if maxSamples > 0 && maxSamples < len then maxSamples else len
  }

  /** The `(done, total)` pairs the progress callback receives after each of the
      first `done` samples, when a callback is set. */
  function ProgressReports(cb: Option<nat>, done: nat, total: nat): (r: seq<(nat, nat)>)
    ensures cb.Some? ==> |r| == done && forall k :: 0 <= k < done ==> r[k] == (k + 1, total)
    ensures cb.None? ==> r == []
  {
    if cb.None? || done == 0 then [] else ProgressReports(cb, done - 1, total) + [(done, total)]
  }

  /** The prefix of the error `Evaluate` returns when the dataset fails to load. */
  const DatasetLoadFailed := "加载数据集失败: "

  /** The error `ctx.Err()` returns once the context is cancelled. */
  const Canceled := "context canceled"

  /** How many samples are evaluated before the context is found cancelled,
      when it is cancelled before sample `cancelAt`. */
  function Evaluated(total: nat, cancelAt: Option<nat>): (done: nat)
    ensures done <= total
    ensures cancelAt.Some? && cancelAt.value < total ==> done == cancelAt.value
    ensures cancelAt.None? || cancelAt.value >= total ==> done == total
  {
    if cancelAt.Some? && cancelAt.value < total then cancelAt.value else total
  }
}
