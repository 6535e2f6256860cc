/** The part of the Markdown reports that selects content: the failed-sample
    section, which both the GAIA and the BFCL exporters build the same way
    (collect the results that did not succeed, in order, then show the first
    ten). The text of the reports is formatting and is not modelled. */
module Reports {
  import opened EvalTypes
  import Tally

  /** How many failed samples a report shows at most. */
  const MaxShown: nat := 10

  /** The results that did not succeed, in their order. */
  function Failures(results: seq<SampleResult>): seq<SampleResult>
  {
    if results == [] then []
    else
      var last := results[|results| - 1];
      Failures(results[..|results| - 1]) + (if last.success then [] else [last])
  }

  /** The failed samples a report shows. */
  function Shown(results: seq<SampleResult>): seq<SampleResult>
  {
    var fs := Failures(results);
    if |fs| < MaxShown then fs else fs[..MaxShown]
  }

  /** The two loops of `ExportMarkdownReport`: failures collected by append,
      then the first ten (or all, when fewer) taken. */
  method SelectFailures(results: seq<SampleResult>) returns (shown: seq<SampleResult>)
    ensures shown == Shown(results)
  {
    var failures := [];
    var i := 0;
    while i < |results|
      invariant 0 <= i <= |results|
      invariant failures == Failures(results[..i])
    {
      assert results[..i + 1][..i] == results[..i];
      if !results[i].success {
        failures := failures + [results[i]];
      }
      i := i + 1;
    }
    assert results[..|results|] == results;
    var maxShow := MaxShown;
    if |failures| < maxShow {
      maxShow := |failures|;
    }
    shown := failures[..maxShow];
  }

  /** Selecting failures commutes with concatenation, so they keep the order
      of the results. */
  lemma {:induction false} FailuresConcat(xs: seq<SampleResult>, ys: seq<SampleResult>)
    ensures Failures(xs + ys) == Failures(xs) + Failures(ys)
    decreases |ys|
  {
    if ys == [] {
      assert xs + ys == xs;
    } else {
      var init := ys[..|ys| - 1];
      assert (xs + ys)[..|xs + ys| - 1] == xs + init;
      FailuresConcat(xs, init);
    }
  }

  /** The failures are exactly the unsuccessful results, and their number is
      the number of results minus the successes. */
  lemma {:induction false} FailuresMeaning(results: seq<SampleResult>)
    ensures forall r :: r in Failures(results) <==> r in results && !r.success
    ensures |Failures(results)| + Successes(results) == |results|
    decreases |results|
  {
    if results != [] {
      var init := results[..|results| - 1];
      FailuresMeaning(init);
      assert results == init + [results[|results| - 1]];
    }
  }

  /** The report shows at most ten failures, each an unsuccessful result, in
      order from the first; it shows all of them when there are at most ten,
      and none exactly when every result succeeded. */
  lemma ShownMeaning(results: seq<SampleResult>)
    ensures |Shown(results)| <= MaxShown
    ensures Shown(results) == Failures(results)[..|Shown(results)|]
    ensures forall r :: r in Shown(results) ==> r in results && !r.success
    ensures |Shown(results)| < MaxShown ==> Shown(results) == Failures(results)
    ensures Shown(results) == [] <==> Successes(results) == |results|
  {
    FailuresMeaning(results);
    var fs := Failures(results);
    forall r | r in Shown(results)
      ensures r in fs
    {
      var k :| 0 <= k < |Shown(results)| && Shown(results)[k] == r;
      assert fs[k] == r;
    }
  }

  /** Results added after ten failures change nothing in the report. */
  lemma LaterResultsHidden(xs: seq<SampleResult>, ys: seq<SampleResult>)
    requires |Failures(xs)| >= MaxShown
    ensures Shown(xs + ys) == Shown(xs)
  {
    FailuresConcat(xs, ys);
    assert (Failures(xs) + Failures(ys))[..MaxShown] == Failures(xs)[..MaxShown];
  }
}
