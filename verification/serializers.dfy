/** The pure parts of the core API serializers: the priority display format,
    the range validators, the key partition of `TestCaseSerializer.create`
    and `TestCaseWithScoreSerializer.get_score`. */
module Serializers {
  import opened Wrappers
  import opened Json
  import opened Text
  import opened Models
  import Utils

  // ---------------------------------------------------------------------
  // Display format of a priority

  /** `format_priority`: underscores become spaces, then the string is
      title-cased. */
  function FormatPriority(x: string): (r: string)
    ensures |r| == |x|
    ensures forall i :: 0 <= i < |x| && !IsAsciiLetter(x[i]) ==> r[i] == (if x[i] == '_' then ' ' else x[i])
    ensures forall i :: 0 <= i < |x| && IsAsciiLetter(x[i]) ==> LowerChar(r[i]) == LowerChar(x[i])
    ensures forall i :: 0 <= i < |r| ==> r[i] != '_'
  {
    var spaced := ReplaceChar(x, '_', ' ');
    assert forall i :: 0 <= i < |x| ==> (IsAsciiLetter(spaced[i]) <==> IsAsciiLetter(x[i]));
    TitleFromKeeps(spaced, false);
    Title(spaced)
  }

  /** Each stored priority is displayed as its label. */
  lemma FormatPriorityLabel(p: Priority)
    ensures FormatPriority(p.Value()) == p.Label()
  {
    var v := p.Value();
    var d := v[6];
    assert ReplaceChar(v, '_', ' ') == "class " + [d];
    TitleOfClass(d);
  }

  /** `"class N".title() == "Class N"` for a digit N. */
  lemma TitleOfClass(d: char)
    requires IsDigit(d)
    ensures Title("class " + [d]) == "Class " + [d]
  {
    var tail := [' ', d];
    assert "class " + [d] == ['c'] + ("lass" + tail);
    TitleFromCons('c', "lass" + tail, false);
    TitleFromLowerRun("lass", tail);
    assert tail == [' '] + [d];
    TitleFromCons(' ', [d], true);
    assert [d] == [d] + [];
    TitleFromCons(d, [], false);
  }

  /** Reading a displayed priority back gives the stored value. */
  lemma FormatPriorityRoundTrip(p: Priority)
    ensures Utils.GetPriority(FormatPriority(p.Value())) == Some(p.Value())
  {
    FormatPriorityLabel(p);
  }

  // ---------------------------------------------------------------------
  // Field validation

  /** The integer metrics `TestCaseSerializer` requires. */
  const INT_METRIC_FIELDS: seq<string> :=
    ["likelihood", "impact", "failure_rate", "failure", "total_runs", "direct_impact",
     "defects", "severity", "feature_size"]

  /** `IntegerField(required=True, min_value=lo, max_value=hi)` */
  function ValidateInt(field: string, value: Option<int>, lo: int, hi: int): (r: Result<int>)
    ensures r.Ok? <==> value.Some? && lo <= value.value <= hi
    ensures r.Ok? ==> r.value == value.value
    ensures r.Err? ==> r.error == ValidationError(field)
  {
    if value.Some? && lo <= value.value && value.value <= hi then Ok(value.value)
    else Err(ValidationError(field))
  }

  function Lookup(data: map<string, int>, field: string): Option<int> {
    if field in data then Some(data[field]) else None
  }

  /** The integer metrics that fail their validator, in declaration order. */
  function MetricErrors(data: map<string, int>, fields: seq<string>): (errors: seq<string>)
    ensures |errors| <= |fields|
  {
    if |fields| == 0 then []
    else
      (if ValidateInt(fields[0], Lookup(data, fields[0]), 1, 100).Ok? then [] else [fields[0]])
      + MetricErrors(data, fields[1..])
  }

  /** The integer metrics of a test case: every failing field is reported,
      in declaration order. */
  function ValidateMetrics(data: map<string, int>, fields: seq<string>): (r: Result<()>)
  {
    var errors := MetricErrors(data, fields);
    if |errors| == 0 then Ok(()) else Err(ValidationErrors(errors))
  }

  /** The metrics validate exactly when every one is present and in
      [1, 100]; a failure lists exactly the fields that are missing or out
      of range. */
  lemma ValidateMetricsSpec(data: map<string, int>, fields: seq<string>)
    ensures ValidateMetrics(data, fields).Ok? <==>
              forall i :: 0 <= i < |fields| ==> fields[i] in data && 1 <= data[fields[i]] <= 100
    ensures ValidateMetrics(data, fields).Err? ==>
              ValidateMetrics(data, fields).error == ValidationErrors(MetricErrors(data, fields))
              && forall f :: f in MetricErrors(data, fields) <==>
                               f in fields && (f !in data || !(1 <= data[f] <= 100))
  {
    MetricErrorsSpec(data, fields);
    var errors := MetricErrors(data, fields);
    if |errors| > 0 {
      assert errors[0] in errors;
    }
  }

  lemma {:induction false} MetricErrorsSpec(data: map<string, int>, fields: seq<string>)
    ensures forall f :: f in MetricErrors(data, fields) <==> f in fields && (f !in data || !(1 <= data[f] <= 100))
  {
    if |fields| > 0 {
      MetricErrorsSpec(data, fields[1..]);
      assert forall f :: f in fields <==> f == fields[0] || f in fields[1..] by {
        assert fields == [fields[0]] + fields[1..];
      }
    }
  }

  /** The boundaries: 1 and 100 are accepted, 0 and 101 rejected. */
  lemma MetricBoundaries(field: string)
    ensures ValidateInt(field, Some(1), 1, 100) == Ok(1)
    ensures ValidateInt(field, Some(100), 1, 100) == Ok(100)
    ensures ValidateInt(field, Some(0), 1, 100).Err?
    ensures ValidateInt(field, Some(101), 1, 100).Err?
  {
  }

  // ---------------------------------------------------------------------
  // TestPlanSerializer

  /** A field of a request: absent, given as null, or given. */
  datatype Field<T> = Absent | Null | Given(value: T)

  /** The request `TestPlanSerializer` validates. */
  datatype PlanRequest = PlanRequest(
    name: Field<string>,
    description: Field<string>,
    outputCounts: Field<int>,
    modules: Field<seq<string>>,
    priority: Field<string>,
    testcaseType: Field<string>)

  /** The validated data: optional fields that were absent are left out
      (`None`); `testcase_type` falls back to its default. */
  datatype ValidPlan = ValidPlan(
    name: Option<string>,
    description: Option<string>,
    outputCounts: int,
    modules: seq<string>,
    priority: Option<string>,
    testcaseType: string)

  /** A given `CharField` value: surrounding whitespace is trimmed, then the
      blank and length checks apply to what is left. */
  predicate CharOk(s: string, maxLength: Option<nat>, allowBlank: bool) {
    var t := Strip(s);
    (allowBlank || t != "") && (maxLength.None? || |t| <= maxLength.value)
  }

  /** An optional `CharField`: absent is fine, null never is. */
  predicate OptionalCharOk(f: Field<string>, maxLength: Option<nat>, allowBlank: bool) {
    match f
    case Absent => true
    case Null => false
    case Given(s) => CharOk(s, maxLength, allowBlank)
  }

  /** `output_counts`: required, in [1, 100]. */
  predicate CountsOk(f: Field<int>) {
    f.Given? && 1 <= f.value <= 100
  }

  /** `module`: a required list of non-blank strings (possibly empty). */
  predicate ModuleOk(f: Field<seq<string>>) {
    f.Given? && forall i :: 0 <= i < |f.value| ==> CharOk(f.value[i], None, false)
  }

  /** The fields of `TestPlanSerializer`, in declaration order. */
  datatype PlanField = Name | Description | OutputCounts | Module | Priority | TestcaseType

  const PLAN_FIELDS: seq<PlanField> := [Name, Description, OutputCounts, Module, Priority, TestcaseType]

  /** The key a field is reported under. */
  function FieldName(f: PlanField): string {
    match f
    case Name => "name"
    case Description => "description"
    case OutputCounts => "output_counts"
    case Module => "module"
    case Priority => "priority"
    case TestcaseType => "testcase_type"
  }

  /** The declared checks of each field: `name` and `priority` at most 200
      characters, `name` and `description` may be blank, `priority` and
      `testcase_type` not. */
  predicate FieldOk(q: PlanRequest, f: PlanField) {
    match f
    case Name => OptionalCharOk(q.name, Some(200), true)
    case Description => OptionalCharOk(q.description, None, true)
    case OutputCounts => CountsOk(q.outputCounts)
    case Module => ModuleOk(q.modules)
    case Priority => OptionalCharOk(q.priority, Some(200), false)
    case TestcaseType => OptionalCharOk(q.testcaseType, Some(200), false)
  }

  /** The fields of `fs` that fail, in order. */
  function Failing(q: PlanRequest, fs: seq<PlanField>): seq<PlanField> {
    if |fs| == 0 then []
    else (if FieldOk(q, fs[0]) then [] else [fs[0]]) + Failing(q, fs[1..])
  }

  lemma {:induction false} FailingSpec(q: PlanRequest, fs: seq<PlanField>)
    ensures forall f :: f in Failing(q, fs) <==> f in fs && !FieldOk(q, f)
  {
    if |fs| > 0 {
      FailingSpec(q, fs[1..]);
      assert fs == [fs[0]] + fs[1..];
    }
  }

  /** The fields that fail validation, in declaration order. */
  function PlanErrors(q: PlanRequest): seq<PlanField> {
    Failing(q, PLAN_FIELDS)
  }

  /** Each field is reported exactly when its own check fails. */
  lemma PlanErrorsSpec(q: PlanRequest)
    ensures forall f :: f in PlanErrors(q) <==> !FieldOk(q, f)
    ensures |PlanErrors(q)| == 0 <==> forall f :: FieldOk(q, f)
  {
    FailingSpec(q, PLAN_FIELDS);
    var e := PlanErrors(q);
    if |e| > 0 {
      assert e[0] in e;
    }
  }

  function FieldNames(fs: seq<PlanField>): seq<string> {
    seq(|fs|, i requires 0 <= i < |fs| => FieldName(fs[i]))
  }

  function StrippedOrNone(f: Field<string>): (r: Option<string>)
    ensures r.Some? <==> f.Given?
    ensures r.Some? ==> r.value == Strip(f.value)
  {
    if f.Given? then Some(Strip(f.value)) else None
  }

  /** The `validated_data` of a request: the given strings trimmed, and
      `testcase_type` defaulting to "functional". */
  function Cleaned(q: PlanRequest): (v: ValidPlan)
    requires q.outputCounts.Given? && q.modules.Given?
    ensures v.outputCounts == q.outputCounts.value
    ensures |v.modules| == |q.modules.value|
    ensures forall i :: 0 <= i < |v.modules| ==> v.modules[i] == Strip(q.modules.value[i])
    ensures v.name == StrippedOrNone(q.name) && v.description == StrippedOrNone(q.description)
    ensures v.priority == StrippedOrNone(q.priority)
    ensures v.testcaseType == if q.testcaseType.Given? then Strip(q.testcaseType.value) else "functional"
  {
    var names := q.modules.value;
    ValidPlan(StrippedOrNone(q.name), StrippedOrNone(q.description), q.outputCounts.value,
              seq(|names|, i requires 0 <= i < |names| => Strip(names[i])),
              StrippedOrNone(q.priority),
              if q.testcaseType.Given? then Strip(q.testcaseType.value) else "functional")
  }

  /** `TestPlanSerializer(data=...).is_valid()` and its `validated_data`:
      every failing field is reported under its key; otherwise the trimmed
      values, which then meet the declared checks. */
  function ValidateTestPlan(q: PlanRequest): (r: Result<ValidPlan>)
    ensures r.Ok? <==> PlanErrors(q) == []
    ensures r.Ok? <==> forall f :: FieldOk(q, f)
    ensures r.Err? ==> r.error == ValidationErrors(FieldNames(PlanErrors(q)))
    ensures r.Ok? ==> q.outputCounts.Given? && q.modules.Given? && r.value == Cleaned(q)
    ensures r.Ok? ==>
              && 1 <= r.value.outputCounts <= 100
              && (forall i :: 0 <= i < |r.value.modules| ==> r.value.modules[i] != "")
              && r.value.testcaseType != ""
              && |r.value.testcaseType| <= 200
              && (r.value.name.Some? ==> |r.value.name.value| <= 200)
  {
    var errors := PlanErrors(q);
    PlanErrorsSpec(q);
    if |errors| > 0 then Err(ValidationErrors(FieldNames(errors)))
    else
      assert FieldOk(q, OutputCounts) && FieldOk(q, Module) && FieldOk(q, Name) && FieldOk(q, TestcaseType);
      Ok(Cleaned(q))
  }

  /** A request with only `output_counts` and `module`. */
  function MinimalPlan(counts: int): PlanRequest {
    PlanRequest(Absent, Absent, Given(counts), Given([]), Absent, Absent)
  }

  /** `output_counts` of `TestPlanSerializer`: 1 and 100 pass (with
      `testcase_type` defaulting to "functional"), 0 and 101 fail. */
  lemma PlanCountBoundaries()
    ensures ValidateTestPlan(MinimalPlan(1)).Ok? && ValidateTestPlan(MinimalPlan(100)).Ok?
    ensures ValidateTestPlan(MinimalPlan(1)).value.testcaseType == "functional"
    ensures PlanErrors(MinimalPlan(0)) == [OutputCounts]
    ensures PlanErrors(MinimalPlan(101)) == [OutputCounts]
  {
    assert FieldOk(MinimalPlan(1), OutputCounts) && FieldOk(MinimalPlan(100), OutputCounts);
  }

  /** A missing `module` is reported on its own. */
  lemma PlanMissingModule()
    ensures PlanErrors(MinimalPlan(10).(modules := Absent)) == [Module]
  {
  }

  /** A null `testcase_type` is reported on its own, and so is one that is
      blank once trimmed. */
  lemma PlanBadTestcaseType()
    ensures PlanErrors(MinimalPlan(10).(testcaseType := Null)) == [TestcaseType]
    ensures PlanErrors(MinimalPlan(10).(testcaseType := Given(" "))) == [TestcaseType]
  {
    StripBlank(" ");
    assert !FieldOk(MinimalPlan(10).(testcaseType := Given(" ")), TestcaseType);
  }

  /** A name of 201 characters. */
  const LONG_NAME: string := seq(201, _ => 'a')

  /** `name` may not be longer than 200 characters. */
  lemma PlanLongName()
    ensures PlanErrors(MinimalPlan(10).(name := Given(LONG_NAME))) == [Name]
  {
    assert |LONG_NAME| == 201;
    StripUnpadded(LONG_NAME);
    var q := MinimalPlan(10).(name := Given(LONG_NAME));
    assert !FieldOk(q, Name);
    assert Failing(q, [TestcaseType]) == [];
    assert Failing(q, [Priority, TestcaseType]) == [];
    assert Failing(q, [Module, Priority, TestcaseType]) == [];
    assert Failing(q, [OutputCounts, Module, Priority, TestcaseType]) == [];
    assert Failing(q, PLAN_FIELDS[1..]) == [];
  }

  /** `name` may be blank: a whitespace-only name is accepted as "". */
  lemma PlanBlankName()
    ensures ValidateTestPlan(MinimalPlan(10).(name := Given(" "))).Ok?
    ensures ValidateTestPlan(MinimalPlan(10).(name := Given(" "))).value.name == Some("")
  {
    StripBlank(" ");
    var q := MinimalPlan(10).(name := Given(" "));
    assert FieldOk(q, Name);
    assert Failing(q, [TestcaseType]) == [];
    assert Failing(q, [Priority, TestcaseType]) == [];
    assert Failing(q, [Module, Priority, TestcaseType]) == [];
    assert Failing(q, [OutputCounts, Module, Priority, TestcaseType]) == [];
    assert Failing(q, [Description, OutputCounts, Module, Priority, TestcaseType]) == [];
    assert PlanErrors(q) == [];
    assert Cleaned(q).name == Some(Strip(" "));
  }

  // ---------------------------------------------------------------------
  // TestCaseSerializer.create

  /** `extract_matrix`: the keys that belong to the metric record. */
  const EXTRACT_MATRIX: seq<string> := INT_METRIC_FIELDS + ["execution_time"]

  predicate Distinct(s: seq<string>) {
    forall i, j :: 0 <= i < j < |s| ==> s[i] != s[j]
  }

  /** The module name, the test-case fields and the metric fields that
      `create` hands to the database. */
  datatype Partition = Partition(moduleName: Json, testcase: map<string, Json>, metric: map<string, Json>)

  /** The key partition of `create`: `module` is popped (and must be
      present), every metric key is popped into the metric record with
      `None` when absent, and the rest stays with the test case. */
  method Create(validatedData: map<string, Json>) returns (r: Result<Partition>)
    ensures "module" !in validatedData ==> r == Err(KeyError("module"))
    ensures "module" in validatedData ==>
              && r.Ok? && r.value.moduleName == validatedData["module"]
              && (forall k :: k in r.value.metric <==> k in EXTRACT_MATRIX)
              && (forall k :: k in EXTRACT_MATRIX ==> r.value.metric[k] == Get(validatedData, k, JNull))
              && (forall k :: k in r.value.testcase <==> k in validatedData && k != "module" && k !in EXTRACT_MATRIX)
              && (forall k :: k in r.value.testcase ==> r.value.testcase[k] == validatedData[k])
  {
    if "module" !in validatedData {
      return Err(KeyError("module"));
    }
    var moduleName := validatedData["module"];
    var data := validatedData - {"module"};
    assert Distinct(EXTRACT_MATRIX) && "module" !in EXTRACT_MATRIX;
    var temp, rest := PopFields(data, EXTRACT_MATRIX);
    return Ok(Partition(moduleName, rest, temp));
  }

  /** `temp[field] = data.pop(field, None)` for each field in turn. */
  method PopFields(data: map<string, Json>, fields: seq<string>) returns (temp: map<string, Json>, rest: map<string, Json>)
    requires Distinct(fields)
    ensures forall k :: k in temp <==> k in fields
    ensures forall k :: k in fields ==> temp[k] == Get(data, k, JNull)
    ensures forall k :: k in rest <==> k in data && k !in fields
    ensures forall k :: k in rest ==> rest[k] == data[k]
  {
    temp := map[];
    rest := data;
    for i := 0 to |fields|
      invariant forall k :: k in temp <==> k in fields[..i]
      invariant forall j :: 0 <= j < i ==> temp[fields[j]] == Get(data, fields[j], JNull)
      invariant forall k :: k in rest <==> k in data && k !in fields[..i]
      invariant forall k :: k in rest ==> rest[k] == data[k]
    {
      var field := fields[i];
      assert fields[..i + 1] == fields[..i] + [field];
      assert field !in fields[..i];
      temp := temp[field := Get(rest, field, JNull)];
      rest := rest - {field};
    }
    assert fields[..|fields|] == fields;
  }

  // ---------------------------------------------------------------------
  // TestCaseWithScoreSerializer.get_score

  /** `get_score`: the stored score of the case in the plan of the context.
      `row` is the score lookup (`None` when no row exists, `Some(None)` for
      a null score). */
  function GetScore(hasPlan: bool, row: Option<Option<real>>): (score: real)
    ensures !hasPlan || row.None? || row.value.None? ==> score == 0.0
    ensures hasPlan && row.Some? && row.value.Some? ==> score == row.value.value
  {
    if hasPlan then
      match row
      case None => 0.0
      case Some(s) => if s.Some? && s.value != 0.0 then s.value else 0.0
    else 0.0
  }

  /** A non-zero score is the stored one. */
  lemma GetScoreNonZero(hasPlan: bool, row: Option<Option<real>>)
    ensures GetScore(hasPlan, row) != 0.0 ==> hasPlan && row == Some(Some(GetScore(hasPlan, row)))
  {
  }
}
