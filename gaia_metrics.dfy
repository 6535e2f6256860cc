/** GAIA metrics: the summary over all results, the per-level table and the
    difficulty-progression analysis. */
module GaiaMetrics {
  import opened Wrappers
  import opened EvalTypes
  import opened Tally

  // ---------------------------------------------------------------------------
  // Summary

  /** The summary of a non-empty result list, from its counters (`Rate` is the
      plain quotient here, as `n` is positive). */
  function GaiaSummary(n: nat, exact: nat, partial: nat, totalScore: real, errors: nat): MetricsSummary
    requires n > 0
  {
    EmptySummary.(
      accuracy := Rate(exact, n),
      averageScore := totalScore / n as real,
      extra := GaiaExtra(n, exact, partial, Rate(exact, n), Rate(partial, n), errors))
  }

  /** What `Compute` returns: all zero with an empty `Extra` for no results;
      otherwise accuracy and average score over all results and the GAIA counters. */
  function Summary(results: seq<SampleResult>): MetricsSummary
  {
    if results == [] then EmptySummary
    else GaiaSummary(|results|, Count(results, IsSuccess), Count(results, IsPartial),
                     Sum(results, ScoreOf), Count(results, HasError))
  }

  /** `Compute`: one pass accumulating the counters, then the ratios. */
  method Compute(results: seq<SampleResult>) returns (summary: MetricsSummary)
    ensures summary == Summary(results)
  {
    summary := EmptySummary;
    if |results| == 0 {
      return;
    }
    var exactMatches, partialMatches, errorCount := 0, 0, 0;
    var totalScore := 0.0;
    var i := 0;
    while i < |results|
      invariant 0 <= i <= |results|
      invariant exactMatches == Count(results[..i], IsSuccess)
      invariant partialMatches == Count(results[..i], IsPartial)
      invariant errorCount == Count(results[..i], HasError)
      invariant totalScore == Sum(results[..i], ScoreOf)
    {
      assert results[..i + 1][..i] == results[..i];
      var r := results[i];
      if r.success {
        exactMatches := exactMatches + 1;
      }
      if r.partialSuccess {
        partialMatches := partialMatches + 1;
      }
      totalScore := totalScore + r.score;
      if r.error != "" {
        errorCount := errorCount + 1;
      }
      i := i + 1;
    }
    assert results[..i] == results;
    summary := GaiaSummary(|results|, exactMatches, partialMatches, totalScore, errorCount);
  }

  /** The accuracy is the share of exact matches, the two rates lie in [0, 1],
      and every error is counted once. */
  lemma SummaryProperties(results: seq<SampleResult>)
    requires results != []
    ensures Summary(results).extra.GaiaExtra? && Summary(results).extra.totalSamples == |results|
    ensures Summary(results).accuracy == Rate(Count(results, IsSuccess), |results|)
    ensures Summary(results).extra.partialMatchRate == Rate(Count(results, IsPartial), |results|)
    ensures Summary(results).accuracy == Summary(results).extra.exactMatchRate
    ensures 0.0 <= Summary(results).accuracy <= 1.0 && 0.0 <= Summary(results).extra.partialMatchRate <= 1.0
    ensures Summary(results).extra.errorCount <= |results|
  {
    var n := |results|;
    var exact, partial := Count(results, IsSuccess), Count(results, IsPartial);
    var s := GaiaSummary(n, exact, partial, Sum(results, ScoreOf), Count(results, HasError));
    assert Summary(results) == s;
    var a, p := Rate(exact, n), Rate(partial, n);
    RateMeaning(exact, n);
    RateMeaning(partial, n);
    assert s.accuracy == a && s.extra.exactMatchRate == a && s.extra.partialMatchRate == p;
  }

  /** The summary test: two exact and three partial matches among three results. */
  lemma SummaryFixture()
    ensures
      var rs := [
        SampleResult("test_001", NoPrediction, JsonValues.JNull, true, true, 1.0, "", 1, "", NoDetails, ""),
        SampleResult("test_002", NoPrediction, JsonValues.JNull, false, true, 0.5, "", 1, "", NoDetails, ""),
        SampleResult("test_003", NoPrediction, JsonValues.JNull, true, true, 1.0, "", 2, "", NoDetails, "")];
      Summary(rs).accuracy == 2.0 / 3.0
      && Summary(rs).extra.exactMatches == 2 && Summary(rs).extra.partialMatches == 3
      && Summary(rs).averageScore == 2.5 / 3.0
  {
    var rs := [
      SampleResult("test_001", NoPrediction, JsonValues.JNull, true, true, 1.0, "", 1, "", NoDetails, ""),
      SampleResult("test_002", NoPrediction, JsonValues.JNull, false, true, 0.5, "", 1, "", NoDetails, ""),
      SampleResult("test_003", NoPrediction, JsonValues.JNull, true, true, 1.0, "", 2, "", NoDetails, "")];
    assert rs[..2][..1] == rs[..1] && rs[..1][..0] == [];
    assert rs[..|rs| - 1] == rs[..2];
    assert Count(rs[..1], IsSuccess) == 1 && Count(rs[..1], IsPartial) == 1 && Sum(rs[..1], ScoreOf) == 1.0;
    assert Count(rs[..2], IsSuccess) == 1 && Count(rs[..2], IsPartial) == 2 && Sum(rs[..2], ScoreOf) == 1.5;
    assert Count(rs, IsSuccess) == 2 && Count(rs, IsPartial) == 3 && Sum(rs, ScoreOf) == 2.5;
  }

  // ---------------------------------------------------------------------------
  // Level table

  /** The level a result is counted under: level 0 (unset) counts as level 1. */
  function LevelOf(r: SampleResult): (lv: int)
    ensures lv != 0
    ensures r.level != 0 ==> lv == r.level
  {
    if r.level == 0 then 1 else r.level
  }

  /** The row of one level: how many results it has, how many matched exactly
      and partially, and those counts divided by the total. */
  function LevelRow(results: seq<SampleResult>, lv: int): LevelMetrics
  {
    var total := CountKey(results, LevelOf, lv);
    var exact := CountKeyWhere(results, LevelOf, lv, IsSuccess);
    var partial := CountKeyWhere(results, LevelOf, lv, IsPartial);
    LevelMetrics(lv, total, exact, partial, Rate(exact, total), Rate(partial, total))
  }

  /** The level table: one row for each level that occurs. */
  ghost function LevelTable(results: seq<SampleResult>): map<int, LevelMetrics>
  {
    map lv | lv in Keys(results, LevelOf) :: LevelRow(results, lv)
  }

  /** A row before its rates are filled in. */
  function CountsOnly(results: seq<SampleResult>, lv: int): LevelMetrics
  {
    LevelRow(results, lv).(exactMatchRate := 0.0, partialMatchRate := 0.0)
  }

  /** One more result adds one to its own level's counters and leaves the
      other levels alone. */
  lemma CountsOnlySnoc(xs: seq<SampleResult>, r: SampleResult, lv: int)
    ensures CountsOnly(xs + [r], lv) ==
      if LevelOf(r) == lv then
        var c := CountsOnly(xs, lv);
        c.(total := c.total + 1,
           exactMatches := c.exactMatches + (if r.success then 1 else 0),
           partialMatches := c.partialMatches + (if r.partialSuccess then 1 else 0))
      else CountsOnly(xs, lv)
  {
    assert (xs + [r])[..|xs|] == xs;
  }

  /** `ComputeLevelMetrics` (and the evaluator's `computeLevelMetrics`, which is
      the same loop): counts per level in one pass, then the rates of every row. */
  method ComputeLevelMetrics(results: seq<SampleResult>) returns (table: map<int, LevelMetrics>)
    ensures table == LevelTable(results)
  {
    table := CountLevels(results);
    table := FillRates(results, table);
  }

  /** The counting pass of `ComputeLevelMetrics`. */
  method CountLevels(results: seq<SampleResult>) returns (table: map<int, LevelMetrics>)
    ensures table.Keys == Keys(results, LevelOf)
    ensures forall lv :: lv in table ==> table[lv] == CountsOnly(results, lv)
  {
    table := map[];
    var i := 0;
    while i < |results|
      invariant 0 <= i <= |results|
      invariant table.Keys == Keys(results[..i], LevelOf)
      invariant forall lv :: lv in table ==> table[lv] == CountsOnly(results[..i], lv)
    {
      var r := results[i];
      ghost var before := table;
      var level, lm := CountResult(table, r);
      table := table[level := lm];
      assert results[..i + 1] == results[..i] + [r];
      TableStep(before, results[..i], r, lm, table, results[..i + 1]);
      i := i + 1;
    }
    assert results[..i] == results;
  }

  /** The row of `r`'s level once `r` is counted: a fresh row when the level
      has none yet, then one more result, exact and partial match. */
  function Bumped(table: map<int, LevelMetrics>, r: SampleResult): LevelMetrics
  {
    var c := if LevelOf(r) in table then table[LevelOf(r)] else LevelMetrics(LevelOf(r), 0, 0, 0, 0.0, 0.0);
    c.(total := c.total + 1,
       exactMatches := c.exactMatches + (if r.success then 1 else 0),
       partialMatches := c.partialMatches + (if r.partialSuccess then 1 else 0))
  }

  /** The body of the counting loop for one result: its level (0 read as 1)
      and that level's row with the result counted. */
  method CountResult(table: map<int, LevelMetrics>, r: SampleResult) returns (level: int, lm: LevelMetrics)
    ensures level == LevelOf(r) && lm == Bumped(table, r)
  {
    level := r.level;
    if level == 0 {
      level := 1;
    }
    var t := table;
    if level !in t {
      t := t[level := LevelMetrics(level, 0, 0, 0, 0.0, 0.0)];
    }
    lm := t[level];
    lm := lm.(total := lm.total + 1);
    if r.success {
      lm := lm.(exactMatches := lm.exactMatches + 1);
    }
    if r.partialSuccess {
      lm := lm.(partialMatches := lm.partialMatches + 1);
    }
  }

  /** One step of the counting pass keeps the table equal to the counts of the
      results seen so far. */
  lemma TableStep(table: map<int, LevelMetrics>, xs: seq<SampleResult>, r: SampleResult, lm: LevelMetrics,
                  next: map<int, LevelMetrics>, ys: seq<SampleResult>)
    requires next == table[LevelOf(r) := lm] && ys == xs + [r]
    requires table.Keys == Keys(xs, LevelOf)
    requires forall lv :: lv in table ==> table[lv] == CountsOnly(xs, lv)
    requires lm == Bumped(table, r)
    ensures next.Keys == Keys(ys, LevelOf)
    ensures forall lv :: lv in next ==> next[lv] == CountsOnly(ys, lv)
  {
    KeysSnoc(xs, r, LevelOf);
    if LevelOf(r) !in table {
      AbsentKeyCountZero(xs, LevelOf, LevelOf(r));
    }
    forall lv | lv in next
      ensures next[lv] == CountsOnly(ys, lv)
    {
      CountsOnlySnoc(xs, r, lv);
    }
  }

  /** The rate pass of `ComputeLevelMetrics`: every row with results gets its
      two rates. */
  method FillRates(results: seq<SampleResult>, counted: map<int, LevelMetrics>) returns (table: map<int, LevelMetrics>)
    requires forall lv :: lv in counted ==> counted[lv] == CountsOnly(results, lv)
    ensures table.Keys == counted.Keys
    ensures forall lv :: lv in table ==> table[lv] == LevelRow(results, lv)
  {
    table := counted;
    var todo := table.Keys;
    while todo != {}
      invariant todo <= table.Keys && table.Keys == counted.Keys
      invariant forall lv :: lv in table ==> table[lv] == (if lv in todo then CountsOnly(results, lv) else LevelRow(results, lv))
      decreases todo
    {
      ghost var some := Member(todo);
      var lv :| lv in todo;
      var lm := table[lv];
      if lm.total > 0 {
        lm := lm.(exactMatchRate := lm.exactMatches as real / lm.total as real,
                  partialMatchRate := lm.partialMatches as real / lm.total as real);
      }
      table := table[lv := lm];
      todo := todo - {lv};
    }
  }

  /** Every result is counted exactly once: each row's total is the number of
      results at that level, the totals add up to the number of results, a row
      never has more matches than results, and no row is keyed 0. */
  lemma LevelTotalsSumToCount(results: seq<SampleResult>)
    ensures forall lv :: lv in LevelTable(results) ==>
      LevelTable(results)[lv].total == CountKey(results, LevelOf, lv) > 0
      && LevelTable(results)[lv].exactMatches <= LevelTable(results)[lv].total
      && LevelTable(results)[lv].partialMatches <= LevelTable(results)[lv].total
    ensures SumCounts(results, LevelOf, LevelTable(results).Keys) == |results|
    ensures 0 !in LevelTable(results)
  {
    CountsSumToLength(results, LevelOf);
    forall lv | lv in LevelTable(results) ensures CountKey(results, LevelOf, lv) > 0 {
      KeyCountPositive(results, LevelOf, lv);
    }
    assert LevelTable(results).Keys == Keys(results, LevelOf);
  }

  function FixtureResult(id: string, success: bool, partial: bool, level: int): SampleResult
  {
    SampleResult(id, NoPrediction, JsonValues.JNull, success, partial, 0.0, "", level, "", NoDetails, "")
  }

  /** The five results of the level-table test, over levels 1, 2 and 3. */
  const LevelFixture := [
    FixtureResult("test_001", true, true, 1),
    FixtureResult("test_002", false, true, 1),
    FixtureResult("test_003", true, true, 2),
    FixtureResult("test_004", false, false, 2),
    FixtureResult("test_005", false, false, 3)]

  /** Level 1 of the level-table test: two results, one exact match, rate 0.5. */
  lemma LevelOneFixture()
    ensures LevelRow(LevelFixture, 1).total == 2 && LevelRow(LevelFixture, 1).exactMatches == 1
    ensures LevelRow(LevelFixture, 1).exactMatchRate == 0.5
  {
    var rs := LevelFixture;
    assert rs[..1] == [] + [rs[0]] && rs[..2] == rs[..1] + [rs[1]] && rs[..3] == rs[..2] + [rs[2]];
    assert rs[..4] == rs[..3] + [rs[3]] && rs == rs[..4] + [rs[4]];
    CountsOnlySnoc([], rs[0], 1);
    CountsOnlySnoc(rs[..1], rs[1], 1);
    CountsOnlySnoc(rs[..2], rs[2], 1);
    CountsOnlySnoc(rs[..3], rs[3], 1);
    CountsOnlySnoc(rs[..4], rs[4], 1);
  }

  /** Levels 2 and 3 of the level-table test hold two results and one. */
  lemma LevelTwoThreeFixture()
    ensures LevelRow(LevelFixture, 2).total == 2 && LevelRow(LevelFixture, 3).total == 1
  {
    var rs := LevelFixture;
    assert rs[..1] == [] + [rs[0]] && rs[..2] == rs[..1] + [rs[1]] && rs[..3] == rs[..2] + [rs[2]];
    assert rs[..4] == rs[..3] + [rs[3]] && rs == rs[..4] + [rs[4]];
    CountsOnlySnoc([], rs[0], 2);
    CountsOnlySnoc(rs[..1], rs[1], 2);
    CountsOnlySnoc(rs[..2], rs[2], 2);
    CountsOnlySnoc(rs[..3], rs[3], 2);
    CountsOnlySnoc(rs[..4], rs[4], 2);
    CountsOnlySnoc([], rs[0], 3);
    CountsOnlySnoc(rs[..1], rs[1], 3);
    CountsOnlySnoc(rs[..2], rs[2], 3);
    CountsOnlySnoc(rs[..3], rs[3], 3);
    CountsOnlySnoc(rs[..4], rs[4], 3);
  }

  /** `n` copies of one result. */
  function Copies(r: SampleResult, n: nat): (rs: seq<SampleResult>)
    ensures |rs| == n && forall k :: 0 <= k < n ==> rs[k] == r
  {
    seq(n, _ => r)
  }

  /** `n` more results of one level add `n` to its total, and `n` to its
      exact and partial counters when the result is an exact or partial
      match. */
  lemma {:induction false} CopiesCounted(xs: seq<SampleResult>, r: SampleResult, n: nat, lv: int)
    requires LevelOf(r) == lv
    ensures var c := CountsOnly(xs, lv);
      CountsOnly(xs + Copies(r, n), lv) ==
        c.(total := c.total + n,
           exactMatches := c.exactMatches + (if r.success then n else 0),
           partialMatches := c.partialMatches + (if r.partialSuccess then n else 0))
    decreases n
  {
    if n == 0 {
      assert xs + Copies(r, 0) == xs;
    } else {
      CopiesCounted(xs, r, n - 1, lv);
      assert xs + Copies(r, n) == (xs + Copies(r, n - 1)) + [r];
      CountsOnlySnoc(xs + Copies(r, n - 1), r, lv);
    }
  }

  /** Fifty level-1 results: forty exact matches, five partial matches only
      and five misses. */
  const RatesFixture :=
    Copies(FixtureResult("exact", true, true, 1), 40)
    + Copies(FixtureResult("partial", false, true, 1), 5)
    + Copies(FixtureResult("miss", false, false, 1), 5)

  /** The level row of those fifty results has the counts and rates of the
      level-metrics test: 40 of 50 exact is 0.8, 45 of 50 partial is 0.9. */
  lemma LevelRatesFixture()
    ensures LevelRow(RatesFixture, 1) == LevelMetrics(1, 50, 40, 45, 0.8, 0.9)
  {
    var exact := Copies(FixtureResult("exact", true, true, 1), 40);
    var partial := Copies(FixtureResult("partial", false, true, 1), 5);
    var miss := Copies(FixtureResult("miss", false, false, 1), 5);
    CopiesCounted([], FixtureResult("exact", true, true, 1), 40, 1);
    assert [] + exact == exact;
    CopiesCounted(exact, FixtureResult("partial", false, true, 1), 5, 1);
    CopiesCounted(exact + partial, FixtureResult("miss", false, false, 1), 5, 1);
    assert CountsOnly(RatesFixture, 1) == LevelMetrics(1, 50, 40, 45, 0.0, 0.0);
  }

  // ---------------------------------------------------------------------------
  // Difficulty progression

  /** The analysis map: `level_rates`, `difficulty_drops` and `performance_pattern`. */
  datatype Progression = Progression(levelRates: map<int, real>, drops: map<string, real>, pattern: string)

  /** A rate looked up in a Go map: an absent level reads as 0. */
  function RateAt(rates: map<int, real>, lv: int): real
  {
    if lv in rates then rates[lv] else 0.0
  }

  /** The exact-match rate of every level. */
  function LevelRates(levelMetrics: map<int, LevelMetrics>): (rates: map<int, real>)
    ensures rates.Keys == levelMetrics.Keys && |rates| == |levelMetrics|
    ensures forall lv :: lv in levelMetrics ==> rates[lv] == levelMetrics[lv].exactMatchRate
  {
    var rates := map lv | lv in levelMetrics :: levelMetrics[lv].exactMatchRate;
    assert rates.Keys == levelMetrics.Keys;
    rates
  }

  /** The drops between the levels 1, 2 and 3: one entry for each pair of
      those levels that are both present, holding the easier level's rate
      minus the harder one's. */
  function Drops(rates: map<int, real>): (drops: map<string, real>)
    ensures drops.Keys <= {"level1_to_level2", "level1_to_level3", "level2_to_level3"}
    ensures "level1_to_level2" in drops <==> 1 in rates && 2 in rates
    ensures "level1_to_level3" in drops <==> 1 in rates && 3 in rates
    ensures "level2_to_level3" in drops <==> 2 in rates && 3 in rates
    ensures "level1_to_level2" in drops ==> drops["level1_to_level2"] == rates[1] - rates[2]
    ensures "level1_to_level3" in drops ==> drops["level1_to_level3"] == rates[1] - rates[3]
    ensures "level2_to_level3" in drops ==> drops["level2_to_level3"] == rates[2] - rates[3]
  {
    var d12: map<string, real> := if 1 in rates && 2 in rates then map["level1_to_level2" := rates[1] - rates[2]] else map[];
    var d13 := if 1 in rates && 3 in rates then d12["level1_to_level3" := rates[1] - rates[3]] else d12;
    if 2 in rates && 3 in rates then d13["level2_to_level3" := rates[2] - rates[3]] else d13
  }

  /** The performance pattern: none for fewer than two levels; the expected
      degradation when level 1 beats level 2 and, with three or more levels,
      level 2 beats level 3; otherwise the level-2 anomaly when level 2 beats
      level 1; otherwise inconsistent. Absent levels read as 0. */
  function Pattern(rates: map<int, real>): (pattern: string)
    ensures pattern == "" <==> |rates| < 2
    ensures pattern == "expected_degradation" <==>
      |rates| >= 2 && RateAt(rates, 1) > RateAt(rates, 2) && (|rates| < 3 || RateAt(rates, 2) > RateAt(rates, 3))
    ensures pattern == "anomaly_level2_better" <==>
      |rates| >= 2 && pattern != "expected_degradation" && RateAt(rates, 1) < RateAt(rates, 2)
    ensures pattern in {"", "expected_degradation", "anomaly_level2_better", "inconsistent"}
  {
    if |rates| >= 2 then
      if RateAt(rates, 1) > RateAt(rates, 2) && (|rates| < 3 || RateAt(rates, 2) > RateAt(rates, 3)) then "expected_degradation"
      else if RateAt(rates, 1) < RateAt(rates, 2) then "anomaly_level2_better"
      else "inconsistent"
    else ""
  }

  /** `AnalyzeDifficultyProgression`. */
  function AnalyzeDifficultyProgression(levelMetrics: map<int, LevelMetrics>): Progression
  {
    var rates := LevelRates(levelMetrics);
    Progression(rates, Drops(rates), Pattern(rates))
  }

  function RowWithRate(lv: int, rate: real): LevelMetrics
  {
    LevelMetrics(lv, 10, 0, 0, rate, 0.0)
  }

  /** The progression test: rates 0.8, 0.5 and 0.2 drop by 0.3 and 0.6 and read
      as the expected degradation. */
  lemma ProgressionFixture()
    ensures
      var p := AnalyzeDifficultyProgression(map[1 := RowWithRate(1, 0.8), 2 := RowWithRate(2, 0.5), 3 := RowWithRate(3, 0.2)]);
      p.drops["level1_to_level2"] == 0.3 && p.drops["level1_to_level3"] == 0.6
      && p.pattern == "expected_degradation"
  {
    var m := map[1 := RowWithRate(1, 0.8), 2 := RowWithRate(2, 0.5), 3 := RowWithRate(3, 0.2)];
    assert m.Keys == {1, 2, 3};
    assert |{1, 2, 3}| == 3;
  }

  /** Absent levels read as 0: with only levels 2 and 3 present and a positive
      level-2 rate, level 1 "scores" 0 and the pattern is the level-2 anomaly. */
  lemma AbsentLevelReadsZero(r2: real, r3: real)
    requires r2 > 0.0
    ensures AnalyzeDifficultyProgression(map[2 := RowWithRate(2, r2), 3 := RowWithRate(3, r3)]).pattern
            == "anomaly_level2_better"
  {
    var m := map[2 := RowWithRate(2, r2), 3 := RowWithRate(3, r3)];
    assert m.Keys == {2, 3};
    assert |{2, 3}| == 2;
  }
}
