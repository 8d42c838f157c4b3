/** `TestcaseImportExcel.get_priority` and `get_failure_rate`: the label and
    rate conversions used when test cases are imported. */
module Utils {
  import opened Wrappers
  import opened Models

  /** `get_priority`: a spreadsheet label to the stored priority value;
      `None` stands for the `False` returned for any other label. */
  function GetPriority(name: string): (r: Option<string>)
    ensures forall p: Priority :: name == p.Label() ==> r == Some(p.Value())
    ensures r.Some? ==> exists p: Priority :: name == p.Label() && r.value == p.Value()
  {
    if name == "Class 1" then
      assert name == Class1.Label();
      Some("class_1")
    else if name == "Class 2" then
      assert name == Class2.Label();
      Some("class_2")
    else if name == "Class 3" then
      assert name == Class3.Label();
      Some("class_3")
    else None
  }

  /** Only the three labels are recognised. */
  lemma GetPriorityOnlyLabels(name: string)
    ensures GetPriority(name).None? <==> name !in {"Class 1", "Class 2", "Class 3"}
  {
  }

  /** `get_failure_rate`: the failure percentage, 0 when either count is
      missing or zero. */
  function GetFailureRate(failure: Option<real>, totalRuns: Option<real>): (rate: real)
    ensures RealOr(failure, 0.0) == 0.0 || RealOr(totalRuns, 0.0) == 0.0 ==> rate == 0.0
    ensures RealOr(failure, 0.0) != 0.0 && RealOr(totalRuns, 0.0) != 0.0 ==>
              rate * totalRuns.value == failure.value * 100.0
  {
    if RealOr(failure, 0.0) != 0.0 && RealOr(totalRuns, 0.0) != 0.0 then
      (failure.value / totalRuns.value) * 100.0
    else 0.0
  }

  /** With at most as many failures as runs the rate is a percentage. */
  lemma FailureRateBounds(failure: real, totalRuns: real)
    requires 0.0 <= failure <= totalRuns
    ensures 0.0 <= GetFailureRate(Some(failure), Some(totalRuns)) <= 100.0
  {
    if failure != 0.0 {
      RatioAtMostOne(failure, totalRuns);
    }
  }
}
