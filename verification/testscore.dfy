/** The risk-based scorer `TestCaseScore`: five components per test case, a
    weighted total floored at 0 and rounded half-up to two places, min-max
    normalisation and a descending sort. `Decimal` values are exact reals. */
module TestScore {
  import opened Wrappers
  import opened Models
  import Sorting

  const MAX_RPN: int := 10000
  const PRECISION: int := 2
  const DEFAULT_MAX_EXECUTION_TIME: real := 300.00

  // ---------------------------------------------------------------------
  // Weights

  /** A weight as the caller passes it: an `int`/`Decimal` (exact) or a
      Python `float`. `Decimal * float` raises TypeError. */
  datatype Weight = Exact(v: real) | Float(v: real)

  datatype ScoreWeights = ScoreWeights(
    risk: Weight, failureRate: Weight, change: Weight, defect: Weight, executionTimePenalty: Weight)

  /** `ScoreWeights(...)` with `__post_init__`: the first negative field, in
      declaration order, raises. */
  function MakeWeights(risk: Weight, failureRate: Weight, change: Weight, defect: Weight, penalty: Weight)
    : (r: Result<ScoreWeights>)
    ensures r.Ok? <==> risk.v >= 0.0 && failureRate.v >= 0.0 && change.v >= 0.0 && defect.v >= 0.0 && penalty.v >= 0.0
    ensures r.Ok? ==> r.value == ScoreWeights(risk, failureRate, change, defect, penalty)
    ensures r == Err(NegativeWeight("risk_weight")) <==> risk.v < 0.0
    ensures r == Err(NegativeWeight("failure_rate_weight")) <==> risk.v >= 0.0 && failureRate.v < 0.0
    ensures r == Err(NegativeWeight("change_weight")) <==> risk.v >= 0.0 && failureRate.v >= 0.0 && change.v < 0.0
    ensures r == Err(NegativeWeight("defect_weight")) <==>
              risk.v >= 0.0 && failureRate.v >= 0.0 && change.v >= 0.0 && defect.v < 0.0
    ensures r == Err(NegativeWeight("execution_time_penalty")) <==>
              risk.v >= 0.0 && failureRate.v >= 0.0 && change.v >= 0.0 && defect.v >= 0.0 && penalty.v < 0.0
  {
    if risk.v < 0.0 then Err(NegativeWeight("risk_weight"))
    else if failureRate.v < 0.0 then Err(NegativeWeight("failure_rate_weight"))
    else if change.v < 0.0 then Err(NegativeWeight("change_weight"))
    else if defect.v < 0.0 then Err(NegativeWeight("defect_weight"))
    else if penalty.v < 0.0 then Err(NegativeWeight("execution_time_penalty"))
    else Ok(ScoreWeights(risk, failureRate, change, defect, penalty))
  }

  predicate AllExact(ws: ScoreWeights) {
    ws.risk.Exact? && ws.failureRate.Exact? && ws.change.Exact? && ws.defect.Exact?
    && ws.executionTimePenalty.Exact?
  }

  /** `ScoreWeights()` as written: every default is the float `1.0`. */
  function DefaultWeights(): ScoreWeights {
    ScoreWeights(Float(1.0), Float(1.0), Float(1.0), Float(1.0), Float(1.0))
  }

  /** The evidently intended defaults: exact ones. */
  function IntendedDefaultWeights(): ScoreWeights {
    ScoreWeights(Exact(1.0), Exact(1.0), Exact(1.0), Exact(1.0), Exact(1.0))
  }

  /** `weights or ScoreWeights()` in the scorer's constructor, with the
      corrected defaults. */
  function EffectiveWeights(weights: Option<ScoreWeights>): (ws: ScoreWeights)
    ensures weights.None? ==> AllExact(ws)
    ensures weights.Some? ==> ws == weights.value
  {
    weights.GetOr(IntendedDefaultWeights())
  }

  // ---------------------------------------------------------------------
  // Rounding

  /** `_round_decimal`: quantize to 0.01 with ROUND_HALF_UP (ties away from
      zero). */
  function RoundHalfUp(x: real): real {
    if x >= 0.0 then (x * 100.0 + 0.5).Floor as real / 100.0
    else -((-x * 100.0 + 0.5).Floor as real / 100.0)
  }

  /** The rounded value is a whole number of hundredths, at most half a
      hundredth away from the input, with the input's sign, and symmetric
      about zero. A tie (exactly half a hundredth away) is rounded away from
      zero: up for a non-negative input, down for a negative one. */
  lemma RoundHalfUpSpec(x: real)
    ensures var r := RoundHalfUp(x);
            && (r * 100.0).Floor as real == r * 100.0
            && -0.005 <= r - x <= 0.005
            && (x >= 0.0 ==> -0.005 < r - x)
            && (x <= 0.0 ==> r - x < 0.005)
            && (x >= 0.0 ==> r >= 0.0)
            && (x <= 0.0 ==> r <= 0.0)
            && RoundHalfUp(-x) == -r
  {
    var r := RoundHalfUp(x);
    if x >= 0.0 {
      var k := (x * 100.0 + 0.5).Floor;
      assert r * 100.0 == k as real;
    } else {
      var k := (-x * 100.0 + 0.5).Floor;
      assert r * 100.0 == -k as real;
    }
  }

  /** The contract above pins the result: a whole number of hundredths in
      (x - 0.005, x + 0.005] for a non-negative x, or in [x - 0.005, x + 0.005)
      for a negative one, is the rounded value. */
  lemma RoundHalfUpUnique(x: real, k: int)
    requires x >= 0.0 ==> -0.005 < k as real / 100.0 - x <= 0.005
    requires x < 0.0 ==> -0.005 <= k as real / 100.0 - x < 0.005
    ensures RoundHalfUp(x) == k as real / 100.0
  {
    if x >= 0.0 {
      assert k as real <= x * 100.0 + 0.5 < k as real + 1.0;
      assert (x * 100.0 + 0.5).Floor == k;
    } else {
      assert -k as real <= -x * 100.0 + 0.5 < -k as real + 1.0;
      assert (-x * 100.0 + 0.5).Floor == -k;
    }
  }

  /** Ties go away from zero: 0.125 becomes 0.13 and -0.125 becomes -0.13,
      where half-even rounding would give 0.12 and -0.12. */
  lemma RoundHalfUpTies()
    ensures RoundHalfUp(0.125) == 0.13
    ensures RoundHalfUp(-0.125) == -0.13
  {
    assert (0.125 * 100.0 + 0.5).Floor == 13;
  }

  /** A whole number of hundredths is left unchanged. */
  lemma RoundHalfUpExact(k: int)
    ensures RoundHalfUp(k as real / 100.0) == k as real / 100.0
  {
    var x := k as real / 100.0;
    assert x * 100.0 == k as real;
    if k >= 0 {
      assert (k as real + 0.5).Floor == k;
    } else {
      assert -x * 100.0 == -k as real;
      assert (-k as real + 0.5).Floor == -k;
    }
  }

  /** Rounding preserves order. */
  lemma RoundHalfUpMonotone(x: real, y: real)
    requires x <= y
    ensures RoundHalfUp(x) <= RoundHalfUp(y)
  {
    if x >= 0.0 {
      assert (x * 100.0 + 0.5).Floor <= (y * 100.0 + 0.5).Floor;
    } else if y < 0.0 {
      assert (-y * 100.0 + 0.5).Floor <= (-x * 100.0 + 0.5).Floor;
    } else {
      RoundHalfUpSpec(x);
      RoundHalfUpSpec(y);
    }
  }

  /** A value in [0, 100] rounds to a value in [0, 100]. */
  lemma RoundHalfUpPercent(x: real)
    requires 0.0 <= x <= 100.0
    ensures 0.0 <= RoundHalfUp(x) <= 100.0
  {
    RoundHalfUpMonotone(0.0, x);
    RoundHalfUpMonotone(x, 100.0);
    RoundHalfUpExact(0);
    RoundHalfUpExact(10000);
  }

  // ---------------------------------------------------------------------
  // The five components

  function RiskComponent(m: TestCaseMetric): real {
    var rpn := (IntOr(Some(m.impact), 0) * IntOr(Some(m.likelihood), 0)) as real;
    rpn / MAX_RPN as real * 100.0
  }

  /** Risk is impact x likelihood / 100, in [0, 100] for a valid record. */
  lemma RiskComponentSpec(m: TestCaseMetric)
    ensures RiskComponent(m) == (m.impact * m.likelihood) as real / 100.0
    ensures ValidMetric(m) ==> 0.0 <= RiskComponent(m) <= 100.0
  {
    if ValidMetric(m) {
      ProductAtMost(m.impact, m.likelihood, 100);
    }
  }

  function FailureRateComponent(m: TestCaseMetric): real {
    var rate :=
      if m.totalRuns.Some? && m.totalRuns.value != 0 && m.totalRuns.value > 0
      then IntOr(m.failure, 0) as real / m.totalRuns.value as real
      else RealOr(m.failureRate, 0.0);
    rate * 100.0
  }

  /** Failure history is failure / total_runs x 100 when there are runs,
      otherwise the stored rate x 100; it is in [0, 100] for
      0 <= failure <= total_runs, or for a stored rate in [0, 1]. */
  lemma FailureRateComponentSpec(m: TestCaseMetric)
    ensures m.totalRuns.Some? && m.totalRuns.value > 0 ==>
              FailureRateComponent(m) == IntOr(m.failure, 0) as real / m.totalRuns.value as real * 100.0
    ensures !(m.totalRuns.Some? && m.totalRuns.value > 0) ==>
              FailureRateComponent(m) == RealOr(m.failureRate, 0.0) * 100.0
    ensures m.totalRuns.Some? && m.totalRuns.value > 0 && 0 <= IntOr(m.failure, 0) <= m.totalRuns.value ==>
              0.0 <= FailureRateComponent(m) <= 100.0
    ensures !(m.totalRuns.Some? && m.totalRuns.value > 0) && 0.0 <= RealOr(m.failureRate, 0.0) <= 1.0 ==>
              0.0 <= FailureRateComponent(m) <= 100.0
  {
    if m.totalRuns.Some? && m.totalRuns.value > 0 && 0 <= IntOr(m.failure, 0) <= m.totalRuns.value {
      RatioAtMostOne(IntOr(m.failure, 0) as real, m.totalRuns.value as real);
    }
  }

  function ChangeImpactComponent(m: TestCaseMetric): real {
    var d := IntOr(m.directImpact, 0);
    if d == 1 then 100.0
    else if d > 0 then 50.0
    else 0.0
  }

  /** Change impact is 100 exactly for a direct impact of 1, 50 exactly for
      another positive one, and 0 exactly when it is missing or not
      positive. */
  lemma ChangeImpactComponentSpec(m: TestCaseMetric)
    ensures ChangeImpactComponent(m) == 100.0 <==> m.directImpact == Some(1)
    ensures ChangeImpactComponent(m) == 50.0 <==> m.directImpact.Some? && m.directImpact.value > 1
    ensures ChangeImpactComponent(m) == 0.0 <==> m.directImpact.None? || m.directImpact.value <= 0
  {
  }

  function DefectComponent(m: TestCaseMetric): real {
    var defects := IntOr(m.defects, 0);
    var severity := IntOr(m.severity, 0);
    var featureSize := if IntOr(m.featureSize, 1) >= 1 then IntOr(m.featureSize, 1) else 1;
    var density := defects as real / featureSize as real;
    var weight := severity as real * density;
    var pct := weight / 100.0 * 100.0;
    if pct <= 100.0 then pct else 100.0
  }

  /** Defect is min(severity x defects / max(feature_size, 1), 100): a
      missing or zero feature size divides by 1, and the result never
      exceeds 100 and is not negative for non-negative counts. */
  lemma DefectComponentSpec(m: TestCaseMetric)
    ensures var fs := if m.featureSize.Some? && m.featureSize.value >= 1 then m.featureSize.value else 1;
            var w := (IntOr(m.severity, 0) * IntOr(m.defects, 0)) as real / fs as real;
            DefectComponent(m) == if w <= 100.0 then w else 100.0
    ensures DefectComponent(m) <= 100.0
    ensures IntOr(m.defects, 0) >= 0 && IntOr(m.severity, 0) >= 0 ==> DefectComponent(m) >= 0.0
  {
    var fs := if m.featureSize.Some? && m.featureSize.value >= 1 then m.featureSize.value else 1;
    var d := IntOr(m.defects, 0) as real;
    var s := IntOr(m.severity, 0) as real;
    assert (if IntOr(m.featureSize, 1) >= 1 then IntOr(m.featureSize, 1) else 1) == fs;
    var weight := s * (d / fs as real);
    assert weight == (s * d) / fs as real;
    assert weight / 100.0 * 100.0 == weight;
    assert (IntOr(m.severity, 0) * IntOr(m.defects, 0)) as real == s * d;
    if d >= 0.0 && s >= 0.0 {
      assert s * d >= 0.0;
    }
  }

  /** `max_execution_time or DEFAULT_MAX_EXECUTION_TIME`. */
  function MaxExecutionTime(given: Option<real>): (t: real)
    ensures given.None? || given == Some(0.0) ==> t == DEFAULT_MAX_EXECUTION_TIME
    ensures given.Some? && given.value != 0.0 ==> t == given.value
  {
    RealOr(given, DEFAULT_MAX_EXECUTION_TIME)
  }

  function ExecutionPenalty(m: TestCaseMetric, maxExecutionTime: real): real {
    var executionTime := RealOr(m.executionTime, 0.0);
    if maxExecutionTime <= 0.0 || executionTime <= 0.0 then 0.0
    else
      var pct := executionTime / maxExecutionTime * 100.0;
      if pct <= 100.0 then pct else 100.0
  }

  /** The penalty is 0 when the maximum or the time is not positive, else
      min(time / max x 100, 100); it always lies in [0, 100]. */
  lemma ExecutionPenaltySpec(m: TestCaseMetric, maxExecutionTime: real)
    ensures 0.0 <= ExecutionPenalty(m, maxExecutionTime) <= 100.0
    ensures maxExecutionTime <= 0.0 || RealOr(m.executionTime, 0.0) <= 0.0 ==>
              ExecutionPenalty(m, maxExecutionTime) == 0.0
    ensures maxExecutionTime > 0.0 && RealOr(m.executionTime, 0.0) > 0.0 ==>
              var pct := m.executionTime.value / maxExecutionTime * 100.0;
              ExecutionPenalty(m, maxExecutionTime) == if pct <= 100.0 then pct else 100.0
  {
    var t := RealOr(m.executionTime, 0.0);
    if maxExecutionTime > 0.0 && t > 0.0 {
      assert t / maxExecutionTime > 0.0;
    }
  }

  // ---------------------------------------------------------------------
  // One test case

  /** `TestCaseScoreResult`. */
  datatype ScoreResult = ScoreResult(
    testcaseId: int,
    total: real,
    risk: real,
    failureRate: real,
    changeImpact: real,
    defect: real,
    executionPenalty: real,
    normalized: Option<real>)

  /** `component * weight`. */
  function Weighted(component: real, w: Weight): Result<real> {
    match w
    case Exact(v) => Ok(component * v)
    case Float(_) => Err(TypeError)
  }

  function WeightedTotal(risk: real, failure: real, change: real, defect: real, penalty: real, ws: ScoreWeights)
    : Result<real>
  {
    var a :- Weighted(risk, ws.risk);
    var b :- Weighted(failure, ws.failureRate);
    var c :- Weighted(change, ws.change);
    var d :- Weighted(defect, ws.defect);
    var e :- Weighted(penalty, ws.executionTimePenalty);
    Ok(a + b + c + d - e)
  }

  /** The result for given components: the weighted total floored at 0, and
      everything rounded. */
  function ScoreOf(testcaseId: int, risk: real, failure: real, change: real, defect: real, penalty: real,
                   ws: ScoreWeights): Result<ScoreResult>
  {
    var total :- WeightedTotal(risk, failure, change, defect, penalty, ws);
    var floored := if total >= 0.0 then total else 0.0;
    Ok(ScoreResult(testcaseId, RoundHalfUp(floored), RoundHalfUp(risk), RoundHalfUp(failure),
                   RoundHalfUp(change), RoundHalfUp(defect), RoundHalfUp(penalty), None))
  }

  /** `_calculate_single_score`. */
  function SingleScore(m: TestCaseMetric, ws: ScoreWeights, maxExecutionTime: real): Result<ScoreResult> {
    ScoreOf(m.testcaseId, RiskComponent(m), FailureRateComponent(m), ChangeImpactComponent(m),
            DefectComponent(m), ExecutionPenalty(m, maxExecutionTime), ws)
  }

  lemma WeightedTotalSpec(risk: real, failure: real, change: real, defect: real, penalty: real, ws: ScoreWeights)
    ensures WeightedTotal(risk, failure, change, defect, penalty, ws).Ok? <==> AllExact(ws)
    ensures AllExact(ws) ==>
              WeightedTotal(risk, failure, change, defect, penalty, ws).value
              == risk * ws.risk.v + failure * ws.failureRate.v + change * ws.change.v + defect * ws.defect.v
                 - penalty * ws.executionTimePenalty.v
  {
  }

  /** The weighted sum of five component values. */
  function Combine(risk: real, failure: real, change: real, defect: real, penalty: real, ws: ScoreWeights): real {
    risk * ws.risk.v + failure * ws.failureRate.v + change * ws.change.v + defect * ws.defect.v
    - penalty * ws.executionTimePenalty.v
  }

  /** The weighted sum of the five components of a test case, before the
      floor. */
  function WeightedSum(m: TestCaseMetric, ws: ScoreWeights, maxExecutionTime: real): real {
    Combine(RiskComponent(m), FailureRateComponent(m), ChangeImpactComponent(m), DefectComponent(m),
            ExecutionPenalty(m, maxExecutionTime), ws)
  }

  lemma ScoreOfSpec(testcaseId: int, risk: real, failure: real, change: real, defect: real, penalty: real,
                    ws: ScoreWeights)
    ensures ScoreOf(testcaseId, risk, failure, change, defect, penalty, ws).Ok? <==> AllExact(ws)
    ensures AllExact(ws) ==>
              var s := ScoreOf(testcaseId, risk, failure, change, defect, penalty, ws).value;
              var sum := Combine(risk, failure, change, defect, penalty, ws);
              var floored := if sum >= 0.0 then sum else 0.0;
              && s.testcaseId == testcaseId
              && s.total >= 0.0
              && -0.005 <= s.total - floored <= 0.005
              && s.total == RoundHalfUp(floored)
              && s.normalized.None?
  {
    WeightedTotalSpec(risk, failure, change, defect, penalty, ws);
    if AllExact(ws) {
      var sum := Combine(risk, failure, change, defect, penalty, ws);
      var floored := if sum >= 0.0 then sum else 0.0;
      var total := WeightedTotal(risk, failure, change, defect, penalty, ws);
      assert total.Ok? && total.value == sum;
      assert ScoreOf(testcaseId, risk, failure, change, defect, penalty, ws).value.total == RoundHalfUp(floored);
      RoundHalfUpSpec(floored);
    }
  }

  /** A test case is scored exactly when every weight is exact. Its total is
      the weighted sum floored at 0, rounded: never negative and within half
      a hundredth of the floored sum; no normalised score is set yet. */
  lemma SingleScoreSpec(m: TestCaseMetric, ws: ScoreWeights, maxExecutionTime: real)
    ensures SingleScore(m, ws, maxExecutionTime).Ok? <==> AllExact(ws)
    ensures AllExact(ws) ==>
              var s := SingleScore(m, ws, maxExecutionTime).value;
              var sum := WeightedSum(m, ws, maxExecutionTime);
              var floored := if sum >= 0.0 then sum else 0.0;
              && s.testcaseId == m.testcaseId
              && s.total >= 0.0
              && -0.005 <= s.total - floored <= 0.005
              && s.total == RoundHalfUp(floored)
              && s.normalized.None?
  {
    var risk, failure, change := RiskComponent(m), FailureRateComponent(m), ChangeImpactComponent(m);
    var defect, penalty := DefectComponent(m), ExecutionPenalty(m, maxExecutionTime);
    ScoreOfSpec(m.testcaseId, risk, failure, change, defect, penalty, ws);
  }

  /** The reported components are the rounded components: change impact is
      one of 0, 50 and 100; the penalty and, for a valid record, the risk lie
      in [0, 100]; the defect part is at most 100. */
  lemma SingleScoreComponents(m: TestCaseMetric, ws: ScoreWeights, maxExecutionTime: real)
    requires AllExact(ws)
    ensures var s := SingleScore(m, ws, maxExecutionTime).value;
            && s.risk == RoundHalfUp(RiskComponent(m))
            && s.failureRate == RoundHalfUp(FailureRateComponent(m))
            && s.changeImpact == RoundHalfUp(ChangeImpactComponent(m))
            && s.defect == RoundHalfUp(DefectComponent(m))
            && s.executionPenalty == RoundHalfUp(ExecutionPenalty(m, maxExecutionTime))
            && (s.changeImpact == 0.0 || s.changeImpact == 50.0 || s.changeImpact == 100.0)
            && 0.0 <= s.executionPenalty <= 100.0
            && (ValidMetric(m) ==> 0.0 <= s.risk <= 100.0)
            && s.defect <= 100.0
  {
    SingleScoreSpec(m, ws, maxExecutionTime);
    var s := SingleScore(m, ws, maxExecutionTime).value;
    assert s.changeImpact == RoundHalfUp(ChangeImpactComponent(m));
    RoundHalfUpExact(0);
    RoundHalfUpExact(5000);
    RoundHalfUpExact(10000);
    ExecutionPenaltySpec(m, maxExecutionTime);
    RoundHalfUpPercent(ExecutionPenalty(m, maxExecutionTime));
    RiskComponentSpec(m);
    if ValidMetric(m) {
      RoundHalfUpPercent(RiskComponent(m));
    }
    DefectComponentSpec(m);
    RoundHalfUpMonotone(DefectComponent(m), 100.0);
  }

  // ---------------------------------------------------------------------
  // Normalisation

  function Totals(rs: seq<ScoreResult>): (ts: seq<real>)
    ensures |ts| == |rs|
    ensures forall i :: 0 <= i < |rs| ==> ts[i] == rs[i].total
  {
    seq(|rs|, i requires 0 <= i < |rs| => rs[i].total)
  }

  /** One normalised score: 100 when all totals are equal, otherwise the
      rounded position of `t` between `lo` and `hi` on a 0-100 scale. */
  function NormValue(t: real, lo: real, hi: real): real {
    if hi - lo == 0.0 then 100.0
    else RoundHalfUp((t - lo) / (hi - lo) * 100.0)
  }

  /** `_normalize_scores` on values: every result keeps its fields and gets
      its normalised score. */
  function Normalized(rs: seq<ScoreResult>): seq<ScoreResult> {
    if |rs| == 0 then rs
    else
      var lo := Lowest(rs);
      var hi := Highest(rs);
      seq(|rs|, i requires 0 <= i < |rs| => rs[i].(normalized := Some(NormValue(rs[i].total, lo, hi))))
  }

  lemma NormValueSpec(t: real, lo: real, hi: real)
    requires lo <= t <= hi
    ensures lo == hi ==> NormValue(t, lo, hi) == 100.0
    ensures 0.0 <= NormValue(t, lo, hi) <= 100.0
    ensures lo < hi && t == lo ==> NormValue(t, lo, hi) == 0.0
    ensures t == hi ==> NormValue(t, lo, hi) == 100.0
  {
    if lo < hi {
      if t == hi {
        assert (t - lo) / (hi - lo) == 1.0;
      }
      RatioAtMostOne(t - lo, hi - lo);
      RoundHalfUpPercent((t - lo) / (hi - lo) * 100.0);
      RoundHalfUpExact(0);
      RoundHalfUpExact(10000);
    }
  }

  lemma NormValueMonotone(t: real, u: real, lo: real, hi: real)
    requires lo <= t <= u <= hi
    ensures NormValue(t, lo, hi) <= NormValue(u, lo, hi)
  {
    if lo < hi {
      assert (t - lo) / (hi - lo) <= (u - lo) / (hi - lo) by {
        assert (u - lo) / (hi - lo) - (t - lo) / (hi - lo) == (u - t) / (hi - lo);
      }
      RoundHalfUpMonotone((t - lo) / (hi - lo) * 100.0, (u - lo) / (hi - lo) * 100.0);
    }
  }

  function Lowest(rs: seq<ScoreResult>): real
    requires |rs| > 0
  {
    Sorting.MinOf(Totals(rs))
  }

  function Highest(rs: seq<ScoreResult>): real
    requires |rs| > 0
  {
    Sorting.MaxOf(Totals(rs))
  }

  lemma NormalizedAt(rs: seq<ScoreResult>, i: int)
    requires 0 <= i < |rs|
    ensures |Normalized(rs)| == |rs|
    ensures Lowest(rs) <= rs[i].total <= Highest(rs)
    ensures Normalized(rs)[i] == rs[i].(normalized := Some(NormValue(rs[i].total, Lowest(rs), Highest(rs))))
  {
    assert Totals(rs)[i] == rs[i].total;
  }

  /** Normalisation changes only the normalised score, which is set and lies
      in [0, 100]. */
  lemma NormalizedBounds(rs: seq<ScoreResult>)
    ensures |Normalized(rs)| == |rs|
    ensures forall i :: 0 <= i < |rs| ==> Normalized(rs)[i].(normalized := rs[i].normalized) == rs[i]
    ensures forall i :: 0 <= i < |rs| ==> Normalized(rs)[i].normalized.Some?
    ensures forall i :: 0 <= i < |rs| ==> 0.0 <= Normalized(rs)[i].normalized.value <= 100.0
  {
    forall i | 0 <= i < |rs|
      ensures Normalized(rs)[i].(normalized := rs[i].normalized) == rs[i]
      ensures Normalized(rs)[i].normalized.Some?
      ensures 0.0 <= Normalized(rs)[i].normalized.value <= 100.0
    {
      NormalizedAt(rs, i);
      NormValueSpec(rs[i].total, Lowest(rs), Highest(rs));
    }
  }

  /** Normalised scores respect the order of the totals. */
  lemma NormalizedMonotone(rs: seq<ScoreResult>, i: int, j: int)
    requires 0 <= i < |rs| && 0 <= j < |rs| && rs[i].total <= rs[j].total
    ensures Normalized(rs)[i].normalized.value <= Normalized(rs)[j].normalized.value
  {
    NormalizedAt(rs, i);
    NormalizedAt(rs, j);
    NormValueMonotone(rs[i].total, rs[j].total, Lowest(rs), Highest(rs));
  }

  /** When all totals are equal every normalised score is 100. */
  lemma NormalizedAllEqual(rs: seq<ScoreResult>)
    requires forall i, j :: 0 <= i < |rs| && 0 <= j < |rs| ==> rs[i].total == rs[j].total
    ensures forall i :: 0 <= i < |rs| ==> Normalized(rs)[i].normalized == Some(100.0)
  {
    forall i | 0 <= i < |rs| ensures Normalized(rs)[i].normalized == Some(100.0) {
      NormalizedAt(rs, i);
      var l :| 0 <= l < |rs| && Totals(rs)[l] == Highest(rs);
      var k :| 0 <= k < |rs| && Totals(rs)[k] == Lowest(rs);
      assert rs[l].total == rs[k].total;
      NormValueSpec(rs[i].total, Lowest(rs), Highest(rs));
    }
  }

  /** A largest total maps to 100; a smallest one maps to 0 unless all
      totals are equal. */
  lemma NormalizedExtremes(rs: seq<ScoreResult>, i: int)
    requires 0 <= i < |rs|
    ensures (forall j :: 0 <= j < |rs| ==> rs[i].total >= rs[j].total) ==>
              Normalized(rs)[i].normalized == Some(100.0)
    ensures (forall j :: 0 <= j < |rs| ==> rs[i].total <= rs[j].total)
            && (exists j :: 0 <= j < |rs| && rs[j].total != rs[i].total) ==>
              Normalized(rs)[i].normalized == Some(0.0)
  {
    NormalizedAt(rs, i);
    var l :| 0 <= l < |rs| && Totals(rs)[l] == Highest(rs);
    var k :| 0 <= k < |rs| && Totals(rs)[k] == Lowest(rs);
    if forall j :: 0 <= j < |rs| ==> rs[i].total >= rs[j].total {
      assert rs[i].total >= rs[l].total;
      NormValueSpec(rs[i].total, Lowest(rs), Highest(rs));
    }
    if (forall j :: 0 <= j < |rs| ==> rs[i].total <= rs[j].total)
       && (exists j :: 0 <= j < |rs| && rs[j].total != rs[i].total) {
      assert rs[i].total <= rs[k].total;
      var j :| 0 <= j < |rs| && rs[j].total != rs[i].total;
      NormalizedAt(rs, j);
      NormValueSpec(rs[i].total, Lowest(rs), Highest(rs));
    }
  }

  /** `_normalize_scores`: writes the normalised score of each result in
      place. */
  method NormalizeScores(a: array<ScoreResult>)
    modifies a
    ensures a[..] == Normalized(old(a[..]))
  {
    if a.Length == 0 {
      return;
    }
    ghost var orig := a[..];
    var scores := Totals(a[..]);
    var maxScore := Sorting.MaxOf(scores);
    var minScore := Sorting.MinOf(scores);
    NormalizeBetween(a, minScore, maxScore);
    forall k | 0 <= k < a.Length ensures a[k] == Normalized(orig)[k] {
      NormalizedAt(orig, k);
    }
  }

  /** The loop of `_normalize_scores` for a given lowest and highest total. */
  method NormalizeBetween(a: array<ScoreResult>, minScore: real, maxScore: real)
    modifies a
    ensures forall k :: 0 <= k < a.Length ==>
              a[k] == old(a[k]).(normalized := Some(NormValue(old(a[k]).total, minScore, maxScore)))
  {
    var scoreRange := maxScore - minScore;
    var i := 0;
    while i < a.Length
      invariant 0 <= i <= a.Length
      invariant forall k :: 0 <= k < i ==>
                  a[k] == old(a[k]).(normalized := Some(NormValue(old(a[k]).total, minScore, maxScore)))
      invariant forall k :: i <= k < a.Length ==> a[k] == old(a[k])
    {
      var normalizedScore: real;
      if scoreRange == 0.0 {
        normalizedScore := 100.0;
      } else {
        normalizedScore := RoundHalfUp((a[i].total - minScore) / scoreRange * 100.0);
      }
      a[i] := a[i].(normalized := Some(normalizedScore));
      i := i + 1;
    }
  }

  // ---------------------------------------------------------------------
  // All test cases

  /** The results of the test cases that could be scored, in input order. */
  function ScoreAll(ms: seq<TestCaseMetric>, ws: ScoreWeights, maxExecutionTime: real): seq<ScoreResult> {
    if |ms| == 0 then []
    else
      var s := SingleScore(ms[|ms| - 1], ws, maxExecutionTime);
      ScoreAll(ms[..|ms| - 1], ws, maxExecutionTime) + (if s.Ok? then [s.value] else [])
  }

  lemma {:induction false} ScoreAllSpec(ms: seq<TestCaseMetric>, ws: ScoreWeights, maxExecutionTime: real)
    ensures AllExact(ws) ==> |ScoreAll(ms, ws, maxExecutionTime)| == |ms|
    ensures AllExact(ws) ==> forall i :: 0 <= i < |ms| ==>
              ScoreAll(ms, ws, maxExecutionTime)[i] == SingleScore(ms[i], ws, maxExecutionTime).value
    ensures !AllExact(ws) ==> ScoreAll(ms, ws, maxExecutionTime) == []
  {
    if |ms| > 0 {
      SingleScoreSpec(ms[|ms| - 1], ws, maxExecutionTime);
      ScoreAllSpec(ms[..|ms| - 1], ws, maxExecutionTime);
      if AllExact(ws) {
        var front := ms[..|ms| - 1];
        forall i | 0 <= i < |ms|
          ensures ScoreAll(ms, ws, maxExecutionTime)[i] == SingleScore(ms[i], ws, maxExecutionTime).value
        {
          if i < |ms| - 1 {
            assert ms[i] == front[i];
          }
        }
      }
    }
  }

  function NegTotal(s: ScoreResult): real {
    -s.total
  }

  predicate SortedDescending(rs: seq<ScoreResult>) {
    forall i, j :: 0 <= i < j < |rs| ==> rs[i].total >= rs[j].total
  }

  /** `calculate_scores` on values. */
  function CalculateScoresSpec(ms: seq<TestCaseMetric>, ws: ScoreWeights, normalize: bool, maxExecutionTime: Option<real>)
    : Result<seq<ScoreResult>>
  {
    if |ms| == 0 then Ok([])
    else
      var rs := ScoreAll(ms, ws, MaxExecutionTime(maxExecutionTime));
      if |rs| == 0 then Err(NoValidScores)
      else Ok(Sorting.SortBy(if normalize then Normalized(rs) else rs, NegTotal))
  }

  /** `calculate_scores`: scores each test case, drops the ones that raise,
      raises when none is left, normalises on request and sorts by total,
      highest first (ties keep input order). */
  method CalculateScores(ms: seq<TestCaseMetric>, ws: ScoreWeights, normalize: bool, maxExecutionTime: Option<real>)
    returns (r: Result<seq<ScoreResult>>)
    ensures r == CalculateScoresSpec(ms, ws, normalize, maxExecutionTime)
    ensures r.Ok? ==> SortedDescending(r.value)
  {
    if |ms| == 0 {
      return Ok([]);
    }
    var maxExecTime := MaxExecutionTime(maxExecutionTime);
    var results := ScoreEach(ms, ws, maxExecTime);
    if |results| == 0 {
      return Err(NoValidScores);
    }
    if normalize {
      results := NormalizeList(results);
    }
    var sorted := Sorting.SortBy(results, NegTotal);
    SortedByTotal(results);
    return Ok(sorted);
  }

  /** `_normalize_scores` applied to the list of results. */
  method NormalizeList(results: seq<ScoreResult>) returns (normalized: seq<ScoreResult>)
    ensures normalized == Normalized(results)
  {
    var a := new ScoreResult[|results|](k requires 0 <= k < |results| => results[k]);
    assert a[..] == results;
    NormalizeScores(a);
    normalized := a[..];
  }

  /** Sorting by the negated total puts the highest total first. */
  lemma SortedByTotal(rs: seq<ScoreResult>)
    ensures SortedDescending(Sorting.SortBy(rs, NegTotal))
  {
    var sorted := Sorting.SortBy(rs, NegTotal);
    Sorting.SortBySorted(rs, NegTotal);
    forall i, j | 0 <= i < j < |sorted| ensures sorted[i].total >= sorted[j].total {
      assert NegTotal(sorted[i]) <= NegTotal(sorted[j]);
    }
  }

  /** The scoring loop of `calculate_scores`: a test case whose scoring
      raises is skipped. */
  method ScoreEach(ms: seq<TestCaseMetric>, ws: ScoreWeights, maxExecTime: real) returns (results: seq<ScoreResult>)
    ensures results == ScoreAll(ms, ws, maxExecTime)
  {
    results := [];
    for i := 0 to |ms|
      invariant results == ScoreAll(ms[..i], ws, maxExecTime)
    {
      assert ms[..i + 1][..i] == ms[..i];
      var s := SingleScore(ms[i], ws, maxExecTime);
      if s.Ok? {
        results := results + [s.value];
      }
    }
    assert ms[..|ms|] == ms;
  }

  /** The outcome of `calculate_scores`: [] for no input; with exact weights
      one result per test case, the same ones as scored, normalised on
      request; with any float weight every test case raises and so the call
      raises. */
  lemma CalculateScoresOutcome(ms: seq<TestCaseMetric>, ws: ScoreWeights, normalize: bool, maxExecutionTime: Option<real>)
    ensures |ms| == 0 ==> CalculateScoresSpec(ms, ws, normalize, maxExecutionTime) == Ok([])
    ensures |ms| > 0 && !AllExact(ws) ==> CalculateScoresSpec(ms, ws, normalize, maxExecutionTime) == Err(NoValidScores)
    ensures |ms| > 0 && AllExact(ws) ==>
              var r := CalculateScoresSpec(ms, ws, normalize, maxExecutionTime);
              var rs := ScoreAll(ms, ws, MaxExecutionTime(maxExecutionTime));
              && r.Ok? && |r.value| == |ms|
              && multiset(r.value) == multiset(if normalize then Normalized(rs) else rs)
              && (normalize ==> forall i :: 0 <= i < |ms| ==> r.value[i].normalized.Some?)
  {
    var rs := ScoreAll(ms, ws, MaxExecutionTime(maxExecutionTime));
    ScoreAllSpec(ms, ws, MaxExecutionTime(maxExecutionTime));
    if |ms| > 0 && AllExact(ws) {
      var r := CalculateScoresSpec(ms, ws, normalize, maxExecutionTime);
      if normalize {
        NormalizedBounds(rs);
        var ns := Normalized(rs);
        forall i | 0 <= i < |ms| ensures r.value[i].normalized.Some? {
          assert r.value[i] in multiset(ns);
        }
      }
    }
  }

  /** As written, the default weights are floats, so a scorer built without
      weights raises for every non-empty input. */
  lemma DefaultWeightsAlwaysRaise(ms: seq<TestCaseMetric>, normalize: bool, maxExecutionTime: Option<real>)
    requires |ms| > 0
    ensures CalculateScoresSpec(ms, DefaultWeights(), normalize, maxExecutionTime) == Err(NoValidScores)
  {
    CalculateScoresOutcome(ms, DefaultWeights(), normalize, maxExecutionTime);
  }

  /** With the intended exact defaults every test case is scored. */
  lemma IntendedDefaultWeightsScoreAll(ms: seq<TestCaseMetric>, normalize: bool, maxExecutionTime: Option<real>)
    ensures CalculateScoresSpec(ms, EffectiveWeights(None), normalize, maxExecutionTime).Ok?
    ensures |CalculateScoresSpec(ms, EffectiveWeights(None), normalize, maxExecutionTime).value| == |ms|
  {
    CalculateScoresOutcome(ms, EffectiveWeights(None), normalize, maxExecutionTime);
  }

  // ---------------------------------------------------------------------
  // Summary

  /** `normalized_score or 0`. */
  function NormalizedOrZero(s: ScoreResult): real {
    RealOr(s.normalized, 0.0)
  }

  function CountHigh(rs: seq<ScoreResult>): nat {
    if |rs| == 0 then 0 else CountHigh(rs[1..]) + (if NormalizedOrZero(rs[0]) >= 80.0 then 1 else 0)
  }

  function CountMedium(rs: seq<ScoreResult>): nat {
    if |rs| == 0 then 0
    else CountMedium(rs[1..]) + (if 40.0 <= NormalizedOrZero(rs[0]) < 80.0 then 1 else 0)
  }

  function CountLow(rs: seq<ScoreResult>): nat {
    if |rs| == 0 then 0 else CountLow(rs[1..]) + (if NormalizedOrZero(rs[0]) < 40.0 then 1 else 0)
  }

  /** The bucket counts of `get_score_summary`. */
  datatype Summary = Summary(totalTestcases: nat, highPriority: nat, mediumPriority: nat, lowPriority: nat)

  function ScoreSummary(rs: seq<ScoreResult>): (r: Option<Summary>)
    ensures r.None? <==> |rs| == 0
    ensures r.Some? ==> r.value.totalTestcases == |rs|
  {
    if |rs| == 0 then None
    else Some(Summary(|rs|, CountHigh(rs), CountMedium(rs), CountLow(rs)))
  }

  /** The high (>= 80), medium ([40, 80)) and low (< 40) buckets partition
      the results. */
  lemma {:induction false} BucketsPartition(rs: seq<ScoreResult>)
    ensures CountHigh(rs) + CountMedium(rs) + CountLow(rs) == |rs|
  {
    if |rs| > 0 {
      BucketsPartition(rs[1..]);
    }
  }

  /** A result counts as high exactly when its normalised score is at least
      80; one without a normalised score counts as low. */
  lemma BucketsOfOne(s: ScoreResult)
    ensures CountHigh([s]) == 1 <==> s.normalized.Some? && s.normalized.value >= 80.0
    ensures s.normalized.None? ==> CountLow([s]) == 1 && CountHigh([s]) == 0 && CountMedium([s]) == 0
  {
    assert [s][1..] == [];
  }
}
