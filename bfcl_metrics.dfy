/** BFCL metrics: the summary with call-level precision, recall and F1, and
    the per-category table (both the metrics calculator's and the evaluator's
    accuracy-only variant). */
module BfclMetrics {
  import opened Wrappers
  import opened EvalTypes
  import opened Tally

  // ---------------------------------------------------------------------------
  // Summary

  /** `expected_count` of a result's details, 0 when absent. */
  function ExpectedOf(r: SampleResult): nat
  {
    if r.details.expectedCount.Some? then r.details.expectedCount.value else 0
  }

  /** `matched_count` of a result's details, 0 when absent. */
  function MatchedOf(r: SampleResult): nat
  {
    if r.details.matchedCount.Some? then r.details.matchedCount.value else 0
  }

  /** The number of `predicted_calls` in a result's details, 0 when absent. */
  function PredictedOf(r: SampleResult): nat
  {
    if r.details.predictedCalls.Some? then |r.details.predictedCalls.value| else 0
  }

  /** The harmonic mean of precision and recall, 0 when both are 0. */
  function F1(precision: real, recall: real): real
  {
    if precision + recall > 0.0 then 2.0 * precision * recall / (precision + recall) else 0.0
  }

  /** The summary of a non-empty result list, from its counters. */
  function BfclSummary(n: nat, successes: nat, totalScore: real, errors: nat,
                       expected: nat, predicted: nat, correct: nat): MetricsSummary
    requires n > 0
  {
    var precision := Rate(correct, predicted);
    var recall := Rate(correct, expected);
    EmptySummary.(
      accuracy := successes as real / n as real,
      averageScore := totalScore / n as real,
      precision := precision,
      recall := recall,
      f1Score := F1(precision, recall),
      extra := BfclExtra(n, successes, errors, expected, predicted, correct))
  }

  /** What `Compute` returns: all zero with an empty `Extra` for no results;
      otherwise the counters over all results and the ratios built from them. */
  function Summary(results: seq<SampleResult>): MetricsSummary
  {
    if results == [] then EmptySummary
    else BfclSummary(|results|, Count(results, IsSuccess), Sum(results, ScoreOf), Count(results, HasError),
                     SumNat(results, ExpectedOf), SumNat(results, PredictedOf), SumNat(results, MatchedOf))
  }

  /** `Compute`: one pass accumulating the counters, then the ratios. */
  method Compute(results: seq<SampleResult>) returns (summary: MetricsSummary)
    ensures summary == Summary(results)
  {
    summary := EmptySummary;
    if |results| == 0 {
      return;
    }
    var successCount, errorCount := 0, 0;
    var totalScore := 0.0;
    var totalExpected, totalPredicted, correct := 0, 0, 0;
    var i := 0;
    while i < |results|
      invariant 0 <= i <= |results|
      invariant successCount == Count(results[..i], IsSuccess)
      invariant totalScore == Sum(results[..i], ScoreOf)
      invariant errorCount == Count(results[..i], HasError)
      invariant totalExpected == SumNat(results[..i], ExpectedOf)
      invariant totalPredicted == SumNat(results[..i], PredictedOf)
      invariant correct == SumNat(results[..i], MatchedOf)
    {
      assert results[..i + 1][..i] == results[..i];
      var r := results[i];
      if r.success {
        successCount := successCount + 1;
      }
      totalScore := totalScore + r.score;
      if r.error != "" {
        errorCount := errorCount + 1;
      }
      if r.details.expectedCount.Some? {
        totalExpected := totalExpected + r.details.expectedCount.value;
      }
      if r.details.matchedCount.Some? {
        correct := correct + r.details.matchedCount.value;
      }
      if r.details.predictedCalls.Some? {
        totalPredicted := totalPredicted + |r.details.predictedCalls.value|;
      }
      i := i + 1;
    }
    assert results[..i] == results;
    summary := BfclSummary(|results|, successCount, totalScore, errorCount, totalExpected, totalPredicted, correct);
  }

  /** No results: every metric is 0 and `Extra` is empty. */
  lemma EmptyResults()
    ensures Summary([]).accuracy == 0.0 && Summary([]).averageScore == 0.0
    ensures Summary([]).precision == 0.0 && Summary([]).recall == 0.0 && Summary([]).f1Score == 0.0
    ensures Summary([]).extra == NoExtra
  {
  }

  /** Accuracy is the share of successes and lies in [0, 1]; the average
      score is the mean score; precision and recall are the correct calls
      over the predicted and the expected calls, 0 when there are none; the
      counters in `Extra` are the totals over all results. */
  lemma SummaryProperties(results: seq<SampleResult>)
    requires results != []
    ensures Summary(results).accuracy == Rate(Count(results, IsSuccess), |results|)
    ensures 0.0 <= Summary(results).accuracy <= 1.0
    ensures Summary(results).averageScore == Sum(results, ScoreOf) / |results| as real
    ensures Summary(results).precision == Rate(SumNat(results, MatchedOf), SumNat(results, PredictedOf))
    ensures Summary(results).recall == Rate(SumNat(results, MatchedOf), SumNat(results, ExpectedOf))
    ensures SumNat(results, PredictedOf) == 0 ==> Summary(results).precision == 0.0
    ensures SumNat(results, ExpectedOf) == 0 ==> Summary(results).recall == 0.0
    ensures Summary(results).extra ==
      BfclExtra(|results|, Count(results, IsSuccess), Count(results, HasError),
                SumNat(results, ExpectedOf), SumNat(results, PredictedOf), SumNat(results, MatchedOf))
    ensures Summary(results).extra.errorCount <= |results|
  {
    var n := |results|;
    var s := BfclSummary(n, Count(results, IsSuccess), Sum(results, ScoreOf), Count(results, HasError),
                         SumNat(results, ExpectedOf), SumNat(results, PredictedOf), SumNat(results, MatchedOf));
    assert Summary(results) == s;
    RateMeaning(Count(results, IsSuccess), n);
  }

  /** F1 is 0 exactly when precision and recall add up to 0; for values in
      [0, 1] it lies between the smaller and the larger of the two. */
  lemma F1Meaning(p: real, r: real)
    requires 0.0 <= p && 0.0 <= r
    ensures F1(p, r) == 0.0 <==> p == 0.0 || r == 0.0
    ensures p <= r ==> p <= F1(p, r) <= r
    ensures r <= p ==> r <= F1(p, r) <= p
  {
    if p + r > 0.0 {
      var s := p + r;
      var f := F1(p, r);
      assert f * s == 2.0 * p * r;
      if p <= r {
        HarmonicBetween(p, r, f);
      } else {
        HarmonicBetween(r, p, f);
      }
      if p > 0.0 && r > 0.0 {
        assert p * r > 0.0;
      }
    }
  }

  /** A value whose product with `lo + hi` is `2 lo hi` lies between `lo` and `hi`. */
  lemma HarmonicBetween(lo: real, hi: real, f: real)
    requires 0.0 <= lo <= hi && lo + hi > 0.0
    requires f * (lo + hi) == 2.0 * lo * hi
    ensures lo <= f <= hi
  {
    var s := lo + hi;
    assert (f - lo) * s == lo * (hi - lo);
    assert (hi - f) * s == hi * (hi - lo);
    NonNegativeProduct(lo, hi - lo);
    NonNegativeProduct(hi, hi - lo);
    NonNegativeFactor(f - lo, s);
    NonNegativeFactor(hi - f, s);
  }

  lemma NonNegativeProduct(a: real, b: real)
    requires 0.0 <= a && 0.0 <= b
    ensures 0.0 <= a * b
  {
  }

  /** A number whose product with a positive factor is non-negative is non-negative. */
  lemma NonNegativeFactor(x: real, s: real)
    requires s > 0.0 && 0.0 <= x * s
    ensures 0.0 <= x
  {
  }

  /** A result whose matched count does not exceed its expected count, which
      is what `evaluateMatch` produces. */
  predicate CountsConsistent(r: SampleResult)
  {
    MatchedOf(r) <= ExpectedOf(r)
  }

  /** Recall never exceeds 1 when every result matched at most the calls it
      expected, and F1 then lies in [0, 1] whenever precision does. */
  lemma RecallAtMostOne(results: seq<SampleResult>)
    requires forall r :: r in results ==> CountsConsistent(r)
    ensures 0.0 <= Summary(results).recall <= 1.0
    ensures 0.0 <= Summary(results).precision
    ensures Summary(results).precision <= 1.0 ==> 0.0 <= Summary(results).f1Score <= 1.0
  {
    if results != [] {
      SumNatMonotone(results, MatchedOf, ExpectedOf);
      var correct := SumNat(results, MatchedOf);
      RateMeaning(correct, SumNat(results, ExpectedOf));
      var s := Summary(results);
      assert s.precision == Rate(correct, SumNat(results, PredictedOf));
      F1Meaning(s.precision, s.recall);
    }
  }

  /** The summary does not depend on the order of the results. */
  lemma SummaryPermutationInvariant(xs: seq<SampleResult>, ys: seq<SampleResult>)
    requires multiset(xs) == multiset(ys)
    ensures Summary(xs) == Summary(ys)
  {
    assert |xs| == |multiset(xs)| == |ys|;
    CountPermutation(xs, ys, IsSuccess);
    CountPermutation(xs, ys, HasError);
    SumPermutation(xs, ys, ScoreOf);
    SumNatPermutation(xs, ys, ExpectedOf);
    SumNatPermutation(xs, ys, PredictedOf);
    SumNatPermutation(xs, ys, MatchedOf);
  }

  /** Precision can exceed 1: a single result whose one predicted call
      matched both of its two expected calls gives precision 2. */
  lemma PrecisionCanExceedOne(f: FunctionCall)
    ensures
      var r := SampleResult("s", Calls([f]), JsonValues.JNull, true, false, 1.0, "", 0, "",
                            NoDetails.(predictedCalls := Some([f]), matchedCount := Some(2), expectedCount := Some(2)), "");
      Summary([r]).precision == 2.0 && Summary([r]).recall == 1.0
  {
    var r := SampleResult("s", Calls([f]), JsonValues.JNull, true, false, 1.0, "", 0, "",
                          NoDetails.(predictedCalls := Some([f]), matchedCount := Some(2), expectedCount := Some(2)), "");
    assert [r][..0] == [];
    assert SumNat([r], MatchedOf) == 2 && SumNat([r], PredictedOf) == 1 && SumNat([r], ExpectedOf) == 2;
  }

  function FixtureCall(name: string): FunctionCall
  {
    FunctionCall(name, map[])
  }

  /** The two results of the summary test. */
  const SummaryResults := [
    SampleResult("test_001", NoPrediction, JsonValues.JNull, true, false, 1.0, "", 0, "",
                 NoDetails.(expectedCount := Some(2), matchedCount := Some(2),
                            predictedCalls := Some([FixtureCall("func1"), FixtureCall("func2")])), ""),
    SampleResult("test_002", NoPrediction, JsonValues.JNull, false, false, 0.5, "", 0, "",
                 NoDetails.(expectedCount := Some(2), matchedCount := Some(1),
                            predictedCalls := Some([FixtureCall("func1")])), "")]

  /** The summary test: accuracy 0.5 and average score 0.75; three of the
      three predicted and of the four expected calls are correct. */
  lemma SummaryFixture()
    ensures Summary(SummaryResults).accuracy == 0.5 && Summary(SummaryResults).averageScore == 0.75
    ensures Summary(SummaryResults).precision == 1.0 && Summary(SummaryResults).recall == 0.75
  {
    var rs := SummaryResults;
    assert rs[..1][..0] == [] && rs[..|rs| - 1] == rs[..1];
    assert ExpectedOf(rs[0]) == 2 && MatchedOf(rs[0]) == 2 && PredictedOf(rs[0]) == 2;
    assert ExpectedOf(rs[1]) == 2 && MatchedOf(rs[1]) == 1 && PredictedOf(rs[1]) == 1;
    assert Count(rs[..1], IsSuccess) == 1 && Sum(rs[..1], ScoreOf) == 1.0;
    assert SumNat(rs[..1], ExpectedOf) == 2 && SumNat(rs[..1], MatchedOf) == 2 && SumNat(rs[..1], PredictedOf) == 2;
    assert Count(rs, IsSuccess) == 1 && Sum(rs, ScoreOf) == 1.5;
    assert SumNat(rs, ExpectedOf) == 4 && SumNat(rs, MatchedOf) == 3 && SumNat(rs, PredictedOf) == 3;
  }

  // ---------------------------------------------------------------------------
  // Category table

  /** The category a result is counted under: the empty category is "default". */
  function CategoryOf(r: SampleResult): (c: string)
    ensures c != ""
    ensures r.category != "" ==> c == r.category
  {
    if r.category == "" then "default" else r.category
  }

  /** The finished row of one category: its results, its successes, their
      ratio and the mean score. */
  function CategoryRow(results: seq<SampleResult>, c: string): CategoryMetrics
  {
    var total := CountKey(results, CategoryOf, c);
    var success := CountKeyWhere(results, CategoryOf, c, IsSuccess);
    CategoryMetrics(c, total, success, Rate(success, total),
                    if total > 0 then SumKey(results, CategoryOf, c, ScoreOf) / total as real else 0.0)
  }

  /** The table `ComputeCategoryMetrics` returns: one row per category that occurs. */
  ghost function CategoryTable(results: seq<SampleResult>): map<string, CategoryMetrics>
  {
    map c | c in Keys(results, CategoryOf) :: CategoryRow(results, c)
  }

  /** The table the evaluator's `computeCategoryMetrics` stores: the same
      rows without an average score. */
  ghost function AccuracyTable(results: seq<SampleResult>): map<string, CategoryMetrics>
  {
    map c | c in Keys(results, CategoryOf) :: CategoryRow(results, c).(averageScore := 0.0)
  }

  /** A row after the counting pass: the score field holds the running sum
      when `withScores` (the calculator) and stays 0 otherwise (the evaluator). */
  function Running(results: seq<SampleResult>, c: string, withScores: bool): CategoryMetrics
  {
    CategoryMetrics(c, CountKey(results, CategoryOf, c), CountKeyWhere(results, CategoryOf, c, IsSuccess), 0.0,
                    if withScores then SumKey(results, CategoryOf, c, ScoreOf) else 0.0)
  }

  /** The row a category gets when its first result is seen. */
  function FreshRow(c: string): CategoryMetrics
  {
    CategoryMetrics(c, 0, 0, 0.0, 0.0)
  }

  /** The row after one more result of its category. */
  function Counted(cm: CategoryMetrics, r: SampleResult, withScores: bool): CategoryMetrics
  {
    cm.(total := cm.total + 1,
        success := cm.success + (if r.success then 1 else 0),
        averageScore := cm.averageScore + (if withScores then r.score else 0.0))
  }

  /** One more result updates only its own category's row. */
  lemma RunningSnoc(xs: seq<SampleResult>, r: SampleResult, c: string, withScores: bool)
    ensures Running(xs + [r], c, withScores) ==
      if CategoryOf(r) == c then Counted(Running(xs, c, withScores), r, withScores) else Running(xs, c, withScores)
  {
    assert (xs + [r])[..|xs|] == xs;
  }

  /** One step of a counting pass keeps the table equal to the running rows
      of the results seen so far. */
  lemma TableStep(table: map<string, CategoryMetrics>, xs: seq<SampleResult>, r: SampleResult, withScores: bool,
                  cm: CategoryMetrics)
    requires table.Keys == Keys(xs, CategoryOf)
    requires forall c :: c in table ==> table[c] == Running(xs, c, withScores)
    requires cm == Counted(if CategoryOf(r) in table then table[CategoryOf(r)] else FreshRow(CategoryOf(r)), r, withScores)
    ensures table[CategoryOf(r) := cm].Keys == Keys(xs + [r], CategoryOf)
    ensures forall c :: c in table[CategoryOf(r) := cm] ==> table[CategoryOf(r) := cm][c] == Running(xs + [r], c, withScores)
  {
    KeysSnoc(xs, r, CategoryOf);
    if CategoryOf(r) !in table {
      AbsentKeyCountZero(xs, CategoryOf, CategoryOf(r));
      AbsentKeySumZero(xs, CategoryOf(r));
    }
    forall c | c in table[CategoryOf(r) := cm]
      ensures table[CategoryOf(r) := cm][c] == Running(xs + [r], c, withScores)
    {
      RunningSnoc(xs, r, c, withScores);
    }
  }

  /** A finished row: the calculator's full row, or the evaluator's row
      without an average score. */
  function Finished(results: seq<SampleResult>, c: string, withScores: bool): CategoryMetrics
  {
    if withScores then CategoryRow(results, c) else CategoryRow(results, c).(averageScore := 0.0)
  }

  /** Dividing a counted row of a category that occurs gives its finished row. */
  lemma FinishRow(results: seq<SampleResult>, c: string, withScores: bool, cm: CategoryMetrics)
    requires c in Keys(results, CategoryOf)
    requires cm == Running(results, c, withScores)
    ensures cm.total > 0
    ensures cm.(accuracy := cm.success as real / cm.total as real,
                averageScore := if withScores then cm.averageScore / cm.total as real else cm.averageScore)
            == Finished(results, c, withScores)
  {
    KeyCountPositive(results, CategoryOf, c);
  }

  /** A category that does not occur has no successes and a zero score sum. */
  lemma {:induction false} AbsentKeySumZero(xs: seq<SampleResult>, c: string)
    requires c !in Keys(xs, CategoryOf)
    ensures CountKeyWhere(xs, CategoryOf, c, IsSuccess) == 0
    ensures SumKey(xs, CategoryOf, c, ScoreOf) == 0.0
    decreases |xs|
  {
    if xs != [] {
      var init := xs[..|xs| - 1];
      assert Keys(init, CategoryOf) <= Keys(xs, CategoryOf) by {
        forall x | x in init ensures x in xs {
          assert xs == init + [xs[|xs| - 1]];
        }
      }
      assert CategoryOf(xs[|xs| - 1]) in Keys(xs, CategoryOf);
      AbsentKeySumZero(init, c);
    }
  }

  /** `Metrics.ComputeCategoryMetrics`: count and sum per category in one
      pass, then turn each sum into a mean and set the accuracy. */
  method ComputeCategoryMetrics(results: seq<SampleResult>) returns (table: map<string, CategoryMetrics>)
    ensures table == CategoryTable(results)
  {
    table := CountCategories(results, true);
    table := FillAverages(results, table, true);
  }

  /** The evaluator's `computeCategoryMetrics`: count per category in one
      pass, then set each accuracy. */
  method ComputeCategoryAccuracy(results: seq<SampleResult>) returns (table: map<string, CategoryMetrics>)
    ensures table == AccuracyTable(results)
  {
    table := CountCategories(results, false);
    table := FillAverages(results, table, false);
  }

  /** The counting pass shared by both: `withScores` says whether the score
      is added to the row's running sum. */
  method CountCategories(results: seq<SampleResult>, withScores: bool) returns (table: map<string, CategoryMetrics>)
    ensures table.Keys == Keys(results, CategoryOf)
    ensures forall c :: c in table ==> table[c] == Running(results, c, withScores)
  {
    table := map[];
    var i := 0;
    while i < |results|
      invariant 0 <= i <= |results|
      invariant table.Keys == Keys(results[..i], CategoryOf)
      invariant forall c :: c in table ==> table[c] == Running(results[..i], c, withScores)
    {
      var r := results[i];
      TableStep(table, results[..i], r, withScores,
                Counted(if CategoryOf(r) in table then table[CategoryOf(r)] else FreshRow(CategoryOf(r)), r, withScores));
      table := CountOne(table, r, withScores);
      assert results[..i + 1] == results[..i] + [r];
      i := i + 1;
    }
    assert results[..i] == results;
  }

  /** The body of the counting pass: the row of the result's category,
      created on first sight, counts one more result. */
  method CountOne(table: map<string, CategoryMetrics>, r: SampleResult, withScores: bool)
    returns (t: map<string, CategoryMetrics>)
    ensures t == table[CategoryOf(r) :=
      Counted(if CategoryOf(r) in table then table[CategoryOf(r)] else FreshRow(CategoryOf(r)), r, withScores)]
  {
    t := table;
    var cat := r.category;
    if cat == "" {
      cat := "default";
    }
    if cat !in t {
      t := t[cat := CategoryMetrics(cat, 0, 0, 0.0, 0.0)];
    }
    var cm := t[cat];
    cm := cm.(total := cm.total + 1);
    if r.success {
      cm := cm.(success := cm.success + 1);
    }
    if withScores {
      cm := cm.(averageScore := cm.averageScore + r.score);
    }
    t := t[cat := cm];
  }

  /** The second pass: every row with results gets its accuracy and, when
      `withScores`, its running sum divided by its total. */
  method FillAverages(results: seq<SampleResult>, counted: map<string, CategoryMetrics>, withScores: bool)
    returns (table: map<string, CategoryMetrics>)
    requires counted.Keys == Keys(results, CategoryOf)
    requires forall c :: c in counted ==> counted[c] == Running(results, c, withScores)
    ensures table.Keys == counted.Keys
    ensures forall c :: c in table ==> table[c] == Finished(results, c, withScores)
  {
    table := counted;
    var todo := table.Keys;
    while todo != {}
      invariant todo <= table.Keys && table.Keys == counted.Keys
      invariant forall c :: c in table ==> table[c] == if c in todo then Running(results, c, withScores) else Finished(results, c, withScores)
      decreases todo
    {
      ghost var some := Member(todo);
      var c :| c in todo;
      var cm := table[c];
      FinishRow(results, c, withScores, cm);
      if cm.total > 0 {
        cm := cm.(accuracy := cm.success as real / cm.total as real);
        if withScores {
          cm := cm.(averageScore := cm.averageScore / cm.total as real);
        }
      }
      table := table[c := cm];
      todo := todo - {c};
    }
  }

  /** Every result is counted once: each row's total is the number of its
      results and positive, successes never exceed the total, the accuracy
      lies in [0, 1], the totals add up to the number of results, and no row
      is keyed by the empty category. */
  lemma CategoryTotals(results: seq<SampleResult>)
    ensures forall c :: c in CategoryTable(results) ==>
      CategoryTable(results)[c].total == CountKey(results, CategoryOf, c) > 0
      && CategoryTable(results)[c].success <= CategoryTable(results)[c].total
      && 0.0 <= CategoryTable(results)[c].accuracy <= 1.0
    ensures SumCounts(results, CategoryOf, CategoryTable(results).Keys) == |results|
    ensures "" !in CategoryTable(results)
  {
    CountsSumToLength(results, CategoryOf);
    forall c | c in CategoryTable(results)
      ensures CountKey(results, CategoryOf, c) > 0
      ensures 0.0 <= CategoryTable(results)[c].accuracy <= 1.0
    {
      KeyCountPositive(results, CategoryOf, c);
      RateMeaning(CountKeyWhere(results, CategoryOf, c, IsSuccess), CountKey(results, CategoryOf, c));
    }
    assert CategoryTable(results).Keys == Keys(results, CategoryOf);
  }

  /** The evaluator's table agrees with the calculator's on categories,
      totals, successes and accuracies, and leaves every average score 0. */
  lemma AccuracyTableAgrees(results: seq<SampleResult>)
    ensures AccuracyTable(results).Keys == CategoryTable(results).Keys
    ensures forall c :: c in AccuracyTable(results) ==>
      AccuracyTable(results)[c] == CategoryTable(results)[c].(averageScore := 0.0)
  {
  }

  function CategoryResult(id: string, category: string, success: bool, score: real): SampleResult
  {
    SampleResult(id, NoPrediction, JsonValues.JNull, success, false, score, category, 0, "", NoDetails, "")
  }

  /** The three results of the category test. */
  const CategoryResults := [
    CategoryResult("test_001", "simple", true, 1.0),
    CategoryResult("test_002", "simple", false, 0.5),
    CategoryResult("test_003", "multiple", true, 1.0)]

  /** The category test: "simple" has two results, one success, accuracy 0.5
      and mean score 0.75; "multiple" has one result and accuracy 1. */
  lemma CategoryFixture()
    ensures CategoryRow(CategoryResults, "simple").total == 2 && CategoryRow(CategoryResults, "simple").success == 1
    ensures CategoryRow(CategoryResults, "simple").accuracy == 0.5
    ensures CategoryRow(CategoryResults, "simple").averageScore == 0.75
    ensures CategoryRow(CategoryResults, "multiple").total == 1
    ensures CategoryRow(CategoryResults, "multiple").accuracy == 1.0
  {
    var rs := CategoryResults;
    assert rs[..1] == [] + [rs[0]] && rs[..2] == rs[..1] + [rs[1]] && rs == rs[..2] + [rs[2]];
    RunningSnoc([], rs[0], "simple", true);
    RunningSnoc(rs[..1], rs[1], "simple", true);
    RunningSnoc(rs[..2], rs[2], "simple", true);
    RunningSnoc([], rs[0], "multiple", true);
    RunningSnoc(rs[..1], rs[1], "multiple", true);
    RunningSnoc(rs[..2], rs[2], "multiple", true);
  }

  /** The category test has exactly the two categories "simple" and "multiple". */
  lemma CategoryFixtureKeys()
    ensures Keys(CategoryResults, CategoryOf) == {"simple", "multiple"}
  {
    var rs := CategoryResults;
    assert CategoryOf(rs[0]) == "simple" && CategoryOf(rs[2]) == "multiple";
    assert forall x :: x in rs ==> x == rs[0] || x == rs[1] || x == rs[2];
  }
}
