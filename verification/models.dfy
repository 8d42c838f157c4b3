/** The test-case records of the core app and the per-record score methods
    of `TestCaseMetric` (the older scoring formulas). Python's `/` on the
    stored values is modelled as exact real division. */
module Models {
  import opened Wrappers
  import Sorting

  /** `PriorityChoice`: stored value and display label. */
  datatype Priority = Class1 | Class2 | Class3 {
    function Value(): string {
      match this
      case Class1 => "class_1"
      case Class2 => "class_2"
      case Class3 => "class_3"
    }

    function Label(): string {
      match this
      case Class1 => "Class 1"
      case Class2 => "Class 2"
      case Class3 => "Class 3"
    }
  }

  /** One `TestCaseMetric` row; nullable columns are `Option`s. */
  datatype TestCaseMetric = TestCaseMetric(
    testcaseId: int,
    likelihood: int,
    impact: int,
    failureRate: Option<real>,
    failure: Option<int>,
    totalRuns: Option<int>,
    directImpact: Option<int>,
    defects: Option<int>,
    severity: Option<int>,
    featureSize: Option<int>,
    executionTime: Option<real>)

  predicate InRange(x: int, lo: int, hi: int) {
    lo <= x <= hi
  }

  /** The field validators: likelihood and impact in [0, 100]; severity and
      feature size, when set, in [0, 10]. */
  predicate ValidMetric(m: TestCaseMetric) {
    && InRange(m.likelihood, 0, 100)
    && InRange(m.impact, 0, 100)
    && (m.severity.Some? ==> InRange(m.severity.value, 0, 10))
    && (m.featureSize.Some? ==> InRange(m.featureSize.value, 0, 10))
  }

  function DefaultMetric(testcaseId: int): TestCaseMetric {
    TestCaseMetric(testcaseId, 0, 0, Some(0.0), Some(0), Some(0), Some(0), Some(0), Some(0), Some(0), Some(0.0))
  }

  /** The validator boundaries: -1, 101 and 11 are rejected, the end points
      are accepted, and the all-default record is valid. */
  lemma ValidatorBoundaries(id: int)
    ensures ValidMetric(DefaultMetric(id))
    ensures !ValidMetric(DefaultMetric(id).(likelihood := -1))
    ensures !ValidMetric(DefaultMetric(id).(likelihood := 101))
    ensures ValidMetric(DefaultMetric(id).(likelihood := 100))
    ensures !ValidMetric(DefaultMetric(id).(impact := -1))
    ensures !ValidMetric(DefaultMetric(id).(impact := 101))
    ensures ValidMetric(DefaultMetric(id).(impact := 100))
    ensures !ValidMetric(DefaultMetric(id).(severity := Some(-1)))
    ensures !ValidMetric(DefaultMetric(id).(severity := Some(11)))
    ensures ValidMetric(DefaultMetric(id).(severity := Some(10)))
    ensures !ValidMetric(DefaultMetric(id).(featureSize := Some(-1)))
    ensures !ValidMetric(DefaultMetric(id).(featureSize := Some(11)))
    ensures ValidMetric(DefaultMetric(id).(featureSize := Some(10)))
  {
  }

  // ---------------------------------------------------------------------
  // get_max_time

  predicate AllSet(times: seq<Option<real>>) {
    forall i :: 0 <= i < |times| ==> times[i].Some?
  }

  predicate NoneSet(times: seq<Option<real>>) {
    forall i :: 0 <= i < |times| ==> times[i].None?
  }

  function Values(times: seq<Option<real>>): (vs: seq<real>)
    requires AllSet(times)
    ensures |vs| == |times|
    ensures forall i :: 0 <= i < |times| ==> vs[i] == times[i].value
  {
    seq(|times|, i requires 0 <= i < |times| => times[i].value)
  }

  /** `get_max_time`: `max` of the distinct stored execution times, or 0 when
      there are none. A lone NULL is returned as is; a NULL beside a number
      makes `max` compare None with a Decimal, a TypeError. */
  function GetMaxTime(times: seq<Option<real>>): (r: Result<Option<real>>)
    ensures |times| == 0 ==> r == Ok(Some(0.0))
    ensures |times| > 0 && AllSet(times) ==>
              r.Ok? && r.value.Some?
              && (exists i :: 0 <= i < |times| && times[i] == r.value)
              && (forall i :: 0 <= i < |times| ==> times[i].value <= r.value.value)
    ensures |times| > 0 && NoneSet(times) ==> r == Ok(None)
    ensures !AllSet(times) && !NoneSet(times) ==> r == Err(TypeError)
  {
    if |times| == 0 then Ok(Some(0.0))
    else if NoneSet(times) then assert times[0].None?; Ok(None)
    else if AllSet(times) then
      var m := Sorting.MaxOf(Values(times));
      assert exists i :: 0 <= i < |times| && times[i] == Some(m) by {
        var i :| 0 <= i < |times| && Values(times)[i] == m;
        assert times[i] == Some(m);
      }
      Ok(Some(m))
    else Err(TypeError)
  }

  // ---------------------------------------------------------------------
  // The per-record score methods

  /** `get_risk_score`: impact x likelihood / 25. */
  function GetRiskScore(m: TestCaseMetric): real {
    (m.impact * m.likelihood) as real / 25.0
  }

  /** `get_history_metrix`: (failure / total_runs) x failure_rate. */
  function GetHistoryMetrix(m: TestCaseMetric): Result<real> {
    if m.failure.None? || m.totalRuns.None? then Err(TypeError)
    else if m.totalRuns.value == 0 then Err(ZeroDivisionError)
    else if m.failureRate.None? then Err(TypeError)
    else Ok(m.failure.value as real / m.totalRuns.value as real * m.failureRate.value)
  }

  /** `get_impact_value`: 1 when direct_impact >= 1, else 0. */
  function GetImpactValue(m: TestCaseMetric): Result<real> {
    if m.directImpact.None? then Err(TypeError)
    else if m.directImpact.value >= 1 then Ok(1.0)
    else Ok(0.0)
  }

  /** `get_defect_value`: (defects / feature_size) x severity when there is at
      least one defect and a non-zero feature size, else 0. */
  function GetDefectValue(m: TestCaseMetric): Result<real> {
    if m.defects.None? then Err(TypeError)
    else if m.defects.value >= 1 && IntOr(m.featureSize, 0) != 0 then
      if m.severity.None? then Err(TypeError)
      else Ok(m.defects.value as real / m.featureSize.value as real * m.severity.value as real)
    else Ok(0.0)
  }

  /** `get_execution_time`: execution_time / get_max_time() when the
      execution time is set and non-zero, else 0. */
  function GetExecutionTime(m: TestCaseMetric, storedTimes: seq<Option<real>>): Result<real> {
    if RealOr(m.executionTime, 0.0) == 0.0 then Ok(0.0)
    else
      var mx :- GetMaxTime(storedTimes);
      if mx.None? then Err(TypeError)
      else if mx.value == 0.0 then Err(ZeroDivisionError)
      else Ok(m.executionTime.value / mx.value)
  }

  /** `get_test_scores`: risk + history + impact + defect - execution, with
      the first exception in evaluation order propagated. */
  function GetTestScores(m: TestCaseMetric, storedTimes: seq<Option<real>>): Result<real> {
    var history :- GetHistoryMetrix(m);
    var impact :- GetImpactValue(m);
    var defect :- GetDefectValue(m);
    var exec :- GetExecutionTime(m, storedTimes);
    Ok(GetRiskScore(m) + history + impact + defect - exec)
  }

  // ---------------------------------------------------------------------
  // Properties of the per-record score methods

  /** The risk score of a valid record lies in [0, 400]. */
  lemma RiskScoreBounds(m: TestCaseMetric)
    requires ValidMetric(m)
    ensures 0.0 <= GetRiskScore(m) <= 400.0
  {
    ProductAtMost(m.impact, m.likelihood, 100);
  }

  /** The risk score is the product of impact and likelihood over 25; for
      a valid record it is zero exactly when one of them is. */
  lemma RiskScoreSpec(m: TestCaseMetric)
    ensures GetRiskScore(m) * 25.0 == (m.impact * m.likelihood) as real
    ensures ValidMetric(m) ==> (GetRiskScore(m) == 0.0 <==> m.impact == 0 || m.likelihood == 0)
  {
    if ValidMetric(m) && m.impact != 0 && m.likelihood != 0 {
      assert m.impact * m.likelihood >= m.likelihood by {
        assert m.impact * m.likelihood == (m.impact - 1) * m.likelihood + m.likelihood;
      }
    }
  }

  /** The history metric is undefined exactly when a count is missing or
      there are no runs; otherwise it is (failure / total_runs) x
      failure_rate, and for 0 <= failure <= total_runs and a rate in
      [0, 100] it lies in [0, 100]. */
  lemma HistoryMetrixSpec(m: TestCaseMetric)
    ensures GetHistoryMetrix(m).Err? <==>
              m.failure.None? || m.totalRuns.None? || m.totalRuns.value == 0 || m.failureRate.None?
    ensures m.totalRuns == Some(0) ==> GetHistoryMetrix(m).Err?
    ensures GetHistoryMetrix(m).Ok? ==>
              GetHistoryMetrix(m).value * m.totalRuns.value as real == m.failure.value as real * m.failureRate.value
    ensures m.failure.Some? && m.totalRuns.Some? && m.failureRate.Some?
            && 0 <= m.failure.value <= m.totalRuns.value && m.totalRuns.value > 0
            && 0.0 <= m.failureRate.value <= 100.0
            ==> 0.0 <= GetHistoryMetrix(m).value <= 100.0
  {
    if m.failure.Some? && m.totalRuns.Some? && m.failureRate.Some?
       && 0 <= m.failure.value <= m.totalRuns.value && m.totalRuns.value > 0
       && 0.0 <= m.failureRate.value <= 100.0 {
      var q := m.failure.value as real / m.totalRuns.value as real;
      RatioAtMostOne(m.failure.value as real, m.totalRuns.value as real);
      assert (1.0 - q) * m.failureRate.value >= 0.0;
    }
    if GetHistoryMetrix(m).Ok? {
      var f, t, rate := m.failure.value as real, m.totalRuns.value as real, m.failureRate.value;
      QuotientTimes(f, t, rate);
    }
  }

  /** (a / b) x c x b == a x c for a non-zero b. */
  lemma QuotientTimes(a: real, b: real, c: real)
    requires b != 0.0
    ensures a / b * c * b == a * c
  {
    assert a / b * b == a;
    assert a / b * c * b == a / b * b * c;
  }

  /** The impact value is 1 for a direct impact of at least 1, 0 below, and
      a TypeError when the column is NULL. */
  lemma ImpactValueSpec(m: TestCaseMetric)
    ensures GetImpactValue(m).Err? <==> m.directImpact.None?
    ensures GetImpactValue(m) == Ok(1.0) <==> m.directImpact.Some? && m.directImpact.value >= 1
    ensures GetImpactValue(m) == Ok(0.0) <==> m.directImpact.Some? && m.directImpact.value < 1
  {
  }

  /** The older total is defined exactly when its four raising parts are,
      and is then risk + history + impact + defect - execution; otherwise it
      raises the first error in evaluation order. */
  lemma TestScoresSpec(m: TestCaseMetric, storedTimes: seq<Option<real>>)
    ensures GetTestScores(m, storedTimes).Ok? <==>
              GetHistoryMetrix(m).Ok? && GetImpactValue(m).Ok? && GetDefectValue(m).Ok?
              && GetExecutionTime(m, storedTimes).Ok?
    ensures GetTestScores(m, storedTimes).Ok? ==>
              GetTestScores(m, storedTimes).value ==
                GetRiskScore(m) + GetHistoryMetrix(m).value + GetImpactValue(m).value
                + GetDefectValue(m).value - GetExecutionTime(m, storedTimes).value
    ensures GetHistoryMetrix(m).Err? ==> GetTestScores(m, storedTimes) == Err(GetHistoryMetrix(m).error)
    ensures GetHistoryMetrix(m).Ok? && GetImpactValue(m).Err? ==>
              GetTestScores(m, storedTimes) == Err(GetImpactValue(m).error)
    ensures GetHistoryMetrix(m).Ok? && GetImpactValue(m).Ok? && GetDefectValue(m).Err? ==>
              GetTestScores(m, storedTimes) == Err(GetDefectValue(m).error)
  {
  }

  /** The older total has no floor: a record without risk, failures, direct
      impact or defects but with a positive execution time among the stored
      ones scores in [-1, 0). */
  lemma TestScoresNoFloor(m: TestCaseMetric, storedTimes: seq<Option<real>>)
    requires m.impact == 0 || m.likelihood == 0
    requires m.failure == Some(0) && m.totalRuns.Some? && m.totalRuns.value > 0 && m.failureRate.Some?
    requires m.directImpact.Some? && m.directImpact.value < 1 && m.defects == Some(0)
    requires m.executionTime.Some? && m.executionTime.value > 0.0
    requires AllSet(storedTimes) && m.executionTime in storedTimes
    ensures GetTestScores(m, storedTimes).Ok?
    ensures -1.0 <= GetTestScores(m, storedTimes).value < 0.0
  {
    ExecutionTimeAtMostOne(m, storedTimes);
    assert GetRiskScore(m) == 0.0;
    assert GetHistoryMetrix(m) == Ok(0.0);
  }

  /** A missing defect count raises TypeError. For at least one defect and
      a set, non-zero feature size the value is (defects / feature_size) x
      severity, and a missing severity raises TypeError. Otherwise the value
      is 0; it never divides by zero. */
  lemma DefectValueSpec(m: TestCaseMetric)
    ensures m.defects.None? ==> GetDefectValue(m) == Err(TypeError)
    ensures m.defects.Some? && m.defects.value >= 1 && IntOr(m.featureSize, 0) != 0 ==>
              && (GetDefectValue(m).Ok? <==> m.severity.Some?)
              && (m.severity.Some? ==>
                    GetDefectValue(m).value * m.featureSize.value as real
                    == (m.defects.value * m.severity.value) as real)
    ensures GetDefectValue(m).Ok? && GetDefectValue(m).value != 0.0 ==>
              m.defects.value >= 1 && m.featureSize.Some? && m.featureSize.value != 0
    ensures m.defects.Some? && (m.defects.value < 1 || m.featureSize.None? || m.featureSize == Some(0)) ==>
              GetDefectValue(m) == Ok(0.0)
  {
    if m.defects.Some? && m.defects.value >= 1 && IntOr(m.featureSize, 0) != 0 && m.severity.Some? {
      QuotientTimes(m.defects.value as real, m.featureSize.value as real, m.severity.value as real);
    }
  }

  /** The older total is not floored: a record with only an execution time
      scores below zero. */
  lemma TestScoreCanBeNegative()
    ensures var m := DefaultMetric(1).(totalRuns := Some(1), executionTime := Some(1.0));
            GetTestScores(m, [Some(1.0)]) == Ok(-1.0)
  {
    var m := DefaultMetric(1).(totalRuns := Some(1), executionTime := Some(1.0));
    assert GetMaxTime([Some(1.0)]) == Ok(Some(1.0));
  }

  /** The execution value is the time divided by the largest stored time: it
      is at most 1 for a record whose time is among the stored ones. */
  lemma ExecutionTimeAtMostOne(m: TestCaseMetric, storedTimes: seq<Option<real>>)
    requires m.executionTime.Some? && m.executionTime.value > 0.0
    requires AllSet(storedTimes) && m.executionTime in storedTimes
    ensures GetExecutionTime(m, storedTimes).Ok?
    ensures 0.0 < GetExecutionTime(m, storedTimes).value <= 1.0
  {
    var i :| 0 <= i < |storedTimes| && storedTimes[i] == m.executionTime;
    var mx := GetMaxTime(storedTimes).value.value;
    assert m.executionTime.value <= mx;
    RatioAtMostOne(m.executionTime.value, mx);
  }

  /** Two factors in [0, bound] have a product in [0, bound x bound]. */
  lemma ProductAtMost(a: int, b: int, bound: int)
    requires 0 <= a <= bound && 0 <= b <= bound
    ensures 0 <= a * b <= bound * bound
  {
    assert a * b <= bound * b;
    assert bound * b <= bound * bound;
  }

  lemma RatioAtMostOne(a: real, b: real)
    requires 0.0 <= a <= b && b > 0.0
    ensures 0.0 <= a / b <= 1.0
  {
    assert a / b * b == a;
  }
}
