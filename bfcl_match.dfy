/** BFCL matching: comparing argument values, scoring one predicted call
    against one expected call, and `evaluateMatch`'s best-match-per-expected
    call with its all-or-nothing success rule. */
module BfclMatch {
  import opened Wrappers
  import opened JsonValues
  import opened Text
  import opened Tally
  import opened EvalTypes
  import opened BfclParsing

  // ---------------------------------------------------------------------------
  // compareValues and toFloat64

  /** `toFloat64` on a decoded value: a JSON number is a float64, a string goes
      through `Sscanf("%f")`, anything else is an error (None). */
  function ToFloat(lib: Stdlib, v: Json): Option<real>
  {
    match v
    case JNum(n) => Some(n)
    case JStr(s) => lib.scanFloat(s)
    case _ => None
  }

  /** `compareValues`: equal `%v` texts, or texts equal up to case, or both
      convertible to the same number. */
  predicate ValuesEqual(lib: Stdlib, a: Json, b: Json)
  {
    var x := lib.formatV(a);
    var y := lib.formatV(b);
    x == y || EqualFold(x, y) || (ToFloat(lib, a).Some? && ToFloat(lib, b).Some? && ToFloat(lib, a).value == ToFloat(lib, b).value)
  }

  lemma EqualFoldSymmetric(a: string, b: string)
    ensures EqualFold(a, b) ==> EqualFold(b, a)
  {
    EqualFoldPointwise(a, b);
    EqualFoldPointwise(b, a);
  }

  /** Every value equals itself, and equality does not depend on which side
      is the prediction. */
  lemma ValuesEqualReflexiveSymmetric(lib: Stdlib, a: Json, b: Json)
    ensures ValuesEqual(lib, a, a)
    ensures ValuesEqual(lib, a, b) ==> ValuesEqual(lib, b, a)
  {
    EqualFoldSymmetric(lib.formatV(a), lib.formatV(b));
  }

  /** A number and a string that scans to it are equal values, whatever
      their `%v` texts; two values that are not numbers or strings are equal
      only by their texts. */
  lemma ValuesEqualNumeric(lib: Stdlib, n: real, s: string, a: Json, b: Json)
    ensures lib.scanFloat(s) == Some(n) ==> ValuesEqual(lib, JNum(n), JStr(s))
    ensures !(a.JNum? || a.JStr?) ==>
            (ValuesEqual(lib, a, b) <==> EqualFold(lib.formatV(a), lib.formatV(b)) || lib.formatV(a) == lib.formatV(b))
  {
  }

  // ---------------------------------------------------------------------------
  // compareFunctionCall

  /** The expected parameter `k` is present in the prediction with an equal value. */
  predicate ParamMatches(lib: Stdlib, pred: FunctionCall, exp: FunctionCall, k: string)
  {
    k in exp.arguments && k in pred.arguments && ValuesEqual(lib, pred.arguments[k], exp.arguments[k])
  }

  /** The expected parameters the prediction matches. */
  function MatchedParams(lib: Stdlib, pred: FunctionCall, exp: FunctionCall): (ks: set<string>)
    ensures ks <= exp.arguments.Keys
  {
    set k | k in exp.arguments && ParamMatches(lib, pred, exp, k)
  }

  /** The score of `compareFunctionCall`: 0 for another name, 1 when nothing
      is expected, otherwise the fraction of expected parameters matched. */
  function CallScore(lib: Stdlib, pred: FunctionCall, exp: FunctionCall): real
  {
    if pred.name != exp.name then 0.0
    else if |exp.arguments| == 0 then 1.0
    else |MatchedParams(lib, pred, exp)| as real / |exp.arguments| as real
  }

  lemma SubsetCardinality<T>(a: set<T>, b: set<T>)
    requires a <= b
    ensures |a| <= |b|
    ensures |a| == |b| ==> a == b
  {
    assert b == a + (b - a);
    if |a| == |b| {
      assert |b - a| == 0;
    }
  }

  /** The score lies in [0, 1], and it is 1 exactly when the names agree and
      every expected parameter is present with an equal value. */
  lemma CallScoreMeaning(lib: Stdlib, pred: FunctionCall, exp: FunctionCall)
    ensures 0.0 <= CallScore(lib, pred, exp) <= 1.0
    ensures CallScore(lib, pred, exp) == 1.0 <==>
            pred.name == exp.name && forall k :: k in exp.arguments ==> ParamMatches(lib, pred, exp, k)
  {
    var ms := MatchedParams(lib, pred, exp);
    SubsetCardinality(ms, exp.arguments.Keys);
    if pred.name == exp.name && |exp.arguments| > 0 {
      var n := |exp.arguments| as real;
      var s := |ms| as real / n;
      assert s * n == |ms| as real;
      if s == 1.0 {
        assert |ms| == |exp.arguments.Keys|;
      }
      if forall k :: k in exp.arguments ==> ParamMatches(lib, pred, exp, k) {
        assert ms == exp.arguments.Keys;
      }
    }
  }

  /** Arguments the expected call does not name do not affect the score. */
  lemma ExtraArgumentsIgnored(lib: Stdlib, pred: FunctionCall, other: FunctionCall, exp: FunctionCall)
    requires pred.name == other.name
    requires forall k :: k in exp.arguments ==> (k in pred.arguments <==> k in other.arguments)
    requires forall k :: k in exp.arguments && k in pred.arguments ==> pred.arguments[k] == other.arguments[k]
    ensures CallScore(lib, pred, exp) == CallScore(lib, other, exp)
  {
    assert MatchedParams(lib, pred, exp) == MatchedParams(lib, other, exp);
  }

  /** Adding a key to the visited set adds one to the count of matched
      visited keys exactly when the key matches. */
  lemma CountedStep(ms: set<string>, seen: set<string>, k: string)
    requires k !in seen
    ensures |ms * (seen + {k})| == |ms * seen| + (if k in ms then 1 else 0)
  {
    if k in ms {
      assert ms * (seen + {k}) == (ms * seen) + {k};
    } else {
      assert ms * (seen + {k}) == ms * seen;
    }
  }

  /** `compareFunctionCall`, counting matched parameters over the expected
      argument map in whatever order the map yields its keys. */
  method CompareFunctionCall(lib: Stdlib, pred: FunctionCall, exp: FunctionCall) returns (score: real)
    ensures score == CallScore(lib, pred, exp)
  {
    if pred.name != exp.name {
      return 0.0;
    }
    if |exp.arguments| == 0 {
      return 1.0;
    }
    var matched := CountMatchedParams(lib, pred, exp);
    score := matched as real / |exp.arguments| as real;
  }

  /** The counting loop of `compareFunctionCall`: each expected parameter,
      visited in no particular order, counts when `matches` holds for it. */
  method CountMatchedParams(lib: Stdlib, pred: FunctionCall, exp: FunctionCall) returns (matched: nat)
    ensures matched == |MatchedParams(lib, pred, exp)|
  {
    var matches := k => ParamMatches(lib, pred, exp, k);
    matched := CountWhere(exp.arguments.Keys, matches);
    assert (set k | k in exp.arguments.Keys && matches(k)) == MatchedParams(lib, pred, exp);
  }

  /** Counts the members of `keys` that satisfy `p`, visiting them one at a
      time in whatever order the set yields them, as a `range` over a Go map does. */
  method CountWhere(keys: set<string>, p: string -> bool) returns (n: nat)
    ensures n == |set k | k in keys && p(k)|
  {
    ghost var hits := set k | k in keys && p(k);
    n := 0;
    var remaining := keys;
    ghost var seen: set<string> := {};
    while remaining != {}
      invariant remaining !! seen && remaining + seen == keys
      invariant n == |hits * seen|
      decreases |remaining|
    {
      ghost var w := Member(remaining);
      var k :| k in remaining;
      CountedStep(hits, seen, k);
      if p(k) {
        n := n + 1;
      }
      remaining := remaining - {k};
      seen := seen + {k};
    }
    assert hits * seen == hits;
  }

  // ---------------------------------------------------------------------------
  // evaluateMatch

  /** The best score any prediction reaches against `exp`, starting from 0
      and replacing it only by a strictly larger score, in prediction order. */
  function BestScore(lib: Stdlib, preds: seq<FunctionCall>, exp: FunctionCall): real
    decreases |preds|
  {
    if preds == [] then 0.0
    else
      var best := BestScore(lib, preds[..|preds| - 1], exp);
      var s := CallScore(lib, preds[|preds| - 1], exp);
      if s > best then s else best
  }

  /** The best score is the largest call score (0 without predictions), so
      it lies in [0, 1]. */
  lemma {:induction false} BestScoreIsMaximum(lib: Stdlib, preds: seq<FunctionCall>, exp: FunctionCall)
    ensures 0.0 <= BestScore(lib, preds, exp) <= 1.0
    ensures forall p :: p in preds ==> CallScore(lib, p, exp) <= BestScore(lib, preds, exp)
    ensures BestScore(lib, preds, exp) == 0.0 || exists p :: p in preds && CallScore(lib, p, exp) == BestScore(lib, preds, exp)
    decreases |preds|
  {
    if preds != [] {
      var init := preds[..|preds| - 1];
      var last := preds[|preds| - 1];
      BestScoreIsMaximum(lib, init, exp);
      CallScoreMeaning(lib, last, exp);
      assert preds == init + [last];
      assert forall p :: p in preds <==> p in init || p == last;
    }
  }

  /** The best score depends only on which calls were predicted, not on
      their order or repetition. */
  lemma BestScoreSameCalls(lib: Stdlib, xs: seq<FunctionCall>, ys: seq<FunctionCall>, exp: FunctionCall)
    requires forall p :: p in xs <==> p in ys
    ensures BestScore(lib, xs, exp) == BestScore(lib, ys, exp)
  {
    BestScoreIsMaximum(lib, xs, exp);
    BestScoreIsMaximum(lib, ys, exp);
  }

  /** An expected call is matched when some prediction reaches score 1. */
  predicate FullyMatched(lib: Stdlib, preds: seq<FunctionCall>, exp: FunctionCall)
  {
    BestScore(lib, preds, exp) >= 1.0
  }

  function MatchedCount(lib: Stdlib, preds: seq<FunctionCall>, exps: seq<FunctionCall>): (n: nat)
    ensures n <= |exps|
  {
    Count(exps, e => FullyMatched(lib, preds, e))
  }

  function ScoreTotal(lib: Stdlib, preds: seq<FunctionCall>, exps: seq<FunctionCall>): real
  {
    Sum(exps, e => BestScore(lib, preds, e))
  }

  /** What `evaluateMatch` returns: the success flag, the score and the
      details it records. */
  datatype Verdict = Verdict(success: bool, score: real, details: Details)

  const NothingPredicted := "未预测任何函数调用"
  const NothingExpected := "无预期函数调用"

  /** `evaluateMatch` given the parsed ground truth. */
  function MatchVerdict(lib: Stdlib, predicted: seq<FunctionCall>, parsed: Result<seq<FunctionCall>>): Verdict
  {
    match parsed
    case Err(e) => Verdict(false, 0.0, NoDetails.(gtParseError := Some(e)))
    case Ok(expected) =>
      var d := NoDetails.(expectedCalls := Some(expected), predictedCalls := Some(predicted));
      if |predicted| == 0 then Verdict(false, 0.0, d.(reason := Some(NothingPredicted)))
      else if |expected| == 0 then Verdict(false, 0.0, d.(reason := Some(NothingExpected)))
      else
        var matched := MatchedCount(lib, predicted, expected);
        var avg := ScoreTotal(lib, predicted, expected) / |expected| as real;
        Verdict(matched == |expected|, avg,
                d.(matchedCount := Some(matched), expectedCount := Some(|expected|), avgScore := Some(avg)))
  }

  /** `evaluateMatch`: parse the ground truth, then for each expected call
      keep the best score over the predictions. */
  method EvaluateMatch(lib: Stdlib, order: KeyOrder, predicted: seq<FunctionCall>, groundTruth: Json) returns (v: Verdict)
    requires DecodeShrinksStrings(lib.decode)
    ensures v == MatchVerdict(lib, predicted, GroundTruthCalls(lib, order, groundTruth))
  {
    var parsed := ParseGroundTruth(lib, order, groundTruth);
    if parsed.Err? {
      return Verdict(false, 0.0, NoDetails.(gtParseError := Some(parsed.error)));
    }
    var expected := parsed.value;
    var d := NoDetails.(expectedCalls := Some(expected), predictedCalls := Some(predicted));
    if |predicted| == 0 {
      return Verdict(false, 0.0, d.(reason := Some(NothingPredicted)));
    }
    if |expected| == 0 {
      return Verdict(false, 0.0, d.(reason := Some(NothingExpected)));
    }
    var matched := 0;
    var total := 0.0;
    var i := 0;
    while i < |expected|
      invariant 0 <= i <= |expected|
      invariant matched == MatchedCount(lib, predicted, expected[..i])
      invariant total == ScoreTotal(lib, predicted, expected[..i])
    {
      var best := BestCallScore(lib, predicted, expected[i]);
      assert expected[..i + 1] == expected[..i] + [expected[i]];
      TalliesSnoc(lib, predicted, expected[..i], expected[i]);
      if best >= 1.0 {
        matched := matched + 1;
      }
      total := total + best;
      i := i + 1;
    }
    assert expected[..i] == expected;
    var avg := total / |expected| as real;
    v := Verdict(matched == |expected|, avg,
                 d.(matchedCount := Some(matched), expectedCount := Some(|expected|), avgScore := Some(avg)));
  }

  /** One more expected call adds one to the matched count when its best
      score is full, and its best score to the total. */
  lemma TalliesSnoc(lib: Stdlib, preds: seq<FunctionCall>, exps: seq<FunctionCall>, e: FunctionCall)
    ensures MatchedCount(lib, preds, exps + [e]) ==
      MatchedCount(lib, preds, exps) + (if BestScore(lib, preds, e) >= 1.0 then 1 else 0)
    ensures ScoreTotal(lib, preds, exps + [e]) == ScoreTotal(lib, preds, exps) + BestScore(lib, preds, e)
  {
    assert (exps + [e])[..|exps|] == exps;
  }

  /** The inner loop of `evaluateMatch`: the best score against one expected call. */
  method BestCallScore(lib: Stdlib, predicted: seq<FunctionCall>, exp: FunctionCall) returns (best: real)
    ensures best == BestScore(lib, predicted, exp)
  {
    best := 0.0;
    var j := 0;
    while j < |predicted|
      invariant 0 <= j <= |predicted|
      invariant best == BestScore(lib, predicted[..j], exp)
    {
      var score := CompareFunctionCall(lib, predicted[j], exp);
      assert predicted[..j + 1][..j] == predicted[..j];
      if score > best {
        best := score;
      }
      j := j + 1;
    }
    assert predicted[..j] == predicted;
  }

  /** A ground truth that does not parse, an empty prediction or an empty
      expectation fails with score 0. */
  lemma VerdictFailures(lib: Stdlib, predicted: seq<FunctionCall>, parsed: Result<seq<FunctionCall>>)
    requires parsed.Err? || |predicted| == 0 || (parsed.Ok? && |parsed.value| == 0)
    ensures !MatchVerdict(lib, predicted, parsed).success && MatchVerdict(lib, predicted, parsed).score == 0.0
    ensures parsed.Err? ==> MatchVerdict(lib, predicted, parsed).details.gtParseError == Some(parsed.error)
  {
  }

  /** An expected call is matched exactly when some prediction scores 1
      against it. */
  lemma FullyMatchedMeaning(lib: Stdlib, preds: seq<FunctionCall>, e: FunctionCall)
    ensures FullyMatched(lib, preds, e) <==> exists p :: p in preds && CallScore(lib, p, e) == 1.0
    ensures FullyMatched(lib, preds, e) <==> BestScore(lib, preds, e) == 1.0
  {
    BestScoreIsMaximum(lib, preds, e);
    if exists p :: p in preds && CallScore(lib, p, e) == 1.0 {
      var p :| p in preds && CallScore(lib, p, e) == 1.0;
    }
  }

  /** Success holds exactly when every expected call is matched with score 1
      by some prediction, and then the score is 1; the matched count never
      exceeds the expected count. */
  lemma VerdictSuccess(lib: Stdlib, predicted: seq<FunctionCall>, expected: seq<FunctionCall>)
    requires |predicted| > 0 && |expected| > 0
    ensures MatchVerdict(lib, predicted, Ok(expected)).success <==>
            forall e :: e in expected ==> exists p :: p in predicted && CallScore(lib, p, e) == 1.0
    ensures MatchVerdict(lib, predicted, Ok(expected)).success ==> MatchVerdict(lib, predicted, Ok(expected)).score == 1.0
    ensures MatchVerdict(lib, predicted, Ok(expected)).details.matchedCount.value
            <= MatchVerdict(lib, predicted, Ok(expected)).details.expectedCount.value
  {
    CountAll(expected, e => FullyMatched(lib, predicted, e));
    forall e | e in expected
      ensures FullyMatched(lib, predicted, e) <==> exists p :: p in predicted && CallScore(lib, p, e) == 1.0
    {
      FullyMatchedMeaning(lib, predicted, e);
    }
    if MatchedCount(lib, predicted, expected) == |expected| {
      forall e | e in expected ensures BestScore(lib, predicted, e) == 1.0 {
        FullyMatchedMeaning(lib, predicted, e);
      }
      SumConstant(expected, e => BestScore(lib, predicted, e), 1.0);
    }
  }

  /** The score is the mean best score, which lies in [0, 1]. */
  lemma VerdictScoreBounds(lib: Stdlib, predicted: seq<FunctionCall>, expected: seq<FunctionCall>)
    requires |predicted| > 0 && |expected| > 0
    ensures 0.0 <= MatchVerdict(lib, predicted, Ok(expected)).score <= 1.0
  {
    forall e | e in expected ensures 0.0 <= BestScore(lib, predicted, e) <= 1.0 {
      BestScoreIsMaximum(lib, predicted, e);
    }
    SumUnitBounds(expected, e => BestScore(lib, predicted, e));
    var n := |expected| as real;
    var t := ScoreTotal(lib, predicted, expected);
    assert t / n * n == t;
  }

  lemma MatchedCountPermutation(lib: Stdlib, p1: seq<FunctionCall>, p2: seq<FunctionCall>,
                                 e1: seq<FunctionCall>, e2: seq<FunctionCall>)
    requires forall p :: p in p1 <==> p in p2
    requires multiset(e1) == multiset(e2)
    ensures MatchedCount(lib, p1, e1) == MatchedCount(lib, p2, e2)
  {
    forall e ensures FullyMatched(lib, p1, e) == FullyMatched(lib, p2, e) {
      BestScoreSameCalls(lib, p1, p2, e);
    }
    CountCongruence(e1, e => FullyMatched(lib, p1, e), e => FullyMatched(lib, p2, e));
    CountPermutation(e1, e2, e => FullyMatched(lib, p2, e));
  }

  lemma ScoreTotalPermutation(lib: Stdlib, p1: seq<FunctionCall>, p2: seq<FunctionCall>,
                              e1: seq<FunctionCall>, e2: seq<FunctionCall>)
    requires forall p :: p in p1 <==> p in p2
    requires multiset(e1) == multiset(e2)
    ensures ScoreTotal(lib, p1, e1) == ScoreTotal(lib, p2, e2)
  {
    forall e ensures BestScore(lib, p1, e) == BestScore(lib, p2, e) {
      BestScoreSameCalls(lib, p1, p2, e);
    }
    SumCongruence(e1, e => BestScore(lib, p1, e), e => BestScore(lib, p2, e));
    SumPermutation(e1, e2, e => BestScore(lib, p2, e));
  }

  /** Reordering (or repeating) the predictions and reordering the expected
      calls changes neither the success flag, the score nor the counts. */
  lemma VerdictPermutationInvariant(lib: Stdlib, p1: seq<FunctionCall>, p2: seq<FunctionCall>,
                                    e1: seq<FunctionCall>, e2: seq<FunctionCall>)
    requires forall p :: p in p1 <==> p in p2
    requires multiset(e1) == multiset(e2)
    ensures MatchVerdict(lib, p1, Ok(e1)).success == MatchVerdict(lib, p2, Ok(e2)).success
    ensures MatchVerdict(lib, p1, Ok(e1)).score == MatchVerdict(lib, p2, Ok(e2)).score
    ensures MatchVerdict(lib, p1, Ok(e1)).details.matchedCount == MatchVerdict(lib, p2, Ok(e2)).details.matchedCount
    ensures MatchVerdict(lib, p1, Ok(e1)).details.expectedCount == MatchVerdict(lib, p2, Ok(e2)).details.expectedCount
  {
    assert |e1| == |multiset(e1)| == |multiset(e2)| == |e2|;
    assert |p1| == 0 <==> |p2| == 0 by {
      if |p1| > 0 { assert p1[0] in p2; }
      if |p2| > 0 { assert p2[0] in p1; }
    }
    MatchedCountPermutation(lib, p1, p2, e1, e2);
    ScoreTotalPermutation(lib, p1, p2, e1, e2);
  }

  /** There is no one-to-one assignment: a single predicted call satisfies
      two identical expected calls, so two calls count as matched although
      only one was predicted. */
  lemma OnePredictionMatchesTwo(lib: Stdlib)
    ensures var f := FunctionCall("f", map[]);
            var v := MatchVerdict(lib, [f], Ok([f, f]));
            v.success && v.score == 1.0 && v.details.matchedCount == Some(2) && v.details.expectedCount == Some(2)
            && v.details.predictedCalls == Some([f])
  {
    var f := FunctionCall("f", map[]);
    assert CallScore(lib, f, f) == 1.0;
    assert f in [f];
    VerdictSuccess(lib, [f], [f, f]);
  }
}
