/** `get_filtered_data`: the test-case repository filtered by module name,
    test-case type and priority. The query set is a parameter: the stored
    test cases in query order, or the error evaluating the query raised. */
module AiFilter {
  import opened Wrappers
  import opened Json
  import opened Text

  /** A stored test case as the filter sees it: the three filtered columns
      and its serialized row. */
  datatype Case = Case(moduleName: string, testcaseType: string, priority: string, row: Json)

  datatype Field = ModuleName | TestcaseType | PriorityField {
    function Of(c: Case): string {
      match this
      case ModuleName => c.moduleName
      case TestcaseType => c.testcaseType
      case PriorityField => c.priority
    }
  }

  /** One `Q(...)` term: `field__in=values` for a list, `field=value`
      otherwise. */
  datatype Criterion = In(field: Field, values: seq<Json>) | Eq(field: Field, value: Json)

  /** How evaluating the query failed. */
  datatype QueryError = ValidationError(details: string) | OtherError(details: string)

  /** `conver_to_list` (defined inside `get_filtered_data` and never called
      there). */
  function ConverToList(value: Json): (r: Json)
    ensures value.JNull? ==> r == JArr([])
    ensures value.JStr? ==> r == JArr([value])
    ensures value.JArr? ==> r.JArr? && |r.items| <= |value.items|
    ensures !value.JNull? && !value.JStr? && !value.JArr? ==> r == value
  {
    match value
    case JNull => JArr([])
    case JStr(_) => JArr([value])
    case JArr(items) => JArr(TruthyItems(items))
    case _ => value
  }

  /** `[v for v in value if v]` */
  function TruthyItems(items: seq<Json>): (r: seq<Json>)
    ensures |r| <= |items|
  {
    if |items| == 0 then []
    else (if Truthy(items[0]) then [items[0]] else []) + TruthyItems(items[1..])
  }

  /** The list filter keeps order and multiplicity: filtering a
      concatenation filters each part in turn. */
  lemma {:induction false} TruthyItemsConcat(a: seq<Json>, b: seq<Json>)
    ensures TruthyItems(a + b) == TruthyItems(a) + TruthyItems(b)
  {
    if |a| == 0 {
      assert a + b == b;
    } else {
      var head := if Truthy(a[0]) then [a[0]] else [];
      assert (a + b)[0] == a[0] && (a + b)[1..] == a[1..] + b;
      calc {
        TruthyItems(a + b);
        head + TruthyItems(a[1..] + b);
        { TruthyItemsConcat(a[1..], b); }
        head + (TruthyItems(a[1..]) + TruthyItems(b));
        (head + TruthyItems(a[1..])) + TruthyItems(b);
        TruthyItems(a) + TruthyItems(b);
      }
    }
  }

  /** One item is kept iff it is truthy. */
  lemma TruthyItemsOne(x: Json)
    ensures TruthyItems([x]) == if Truthy(x) then [x] else []
  {
    assert [x][1..] == [];
  }

  /** The list filter keeps exactly the truthy items, and keeps a list of
      truthy items as it is. */
  lemma {:induction false} TruthyItemsSpec(items: seq<Json>)
    ensures forall x :: x in TruthyItems(items) <==> x in items && Truthy(x)
    ensures (forall i :: 0 <= i < |items| ==> Truthy(items[i])) ==> TruthyItems(items) == items
  {
    if |items| > 0 {
      TruthyItemsSpec(items[1..]);
      assert items == [items[0]] + items[1..];
    }
  }

  /** Converting twice is converting once, except for the empty string,
      which becomes `[""]` and then `[]`. */
  lemma ConverToListIdempotent(value: Json)
    ensures value != JStr("") ==> ConverToList(ConverToList(value)) == ConverToList(value)
    ensures ConverToList(ConverToList(JStr(""))) == JArr([])
  {
    assert TruthyItems([JStr("")]) == [] + TruthyItems([]);
    if value.JArr? {
      var r := TruthyItems(value.items);
      TruthyItemsSpec(value.items);
      forall i | 0 <= i < |r| ensures Truthy(r[i]) {
        assert r[i] in r;
      }
      TruthyItemsSpec(r);
      assert ConverToList(value) == JArr(r);
    }
  }

  /** The `Q` term for one criterion, when it is non-empty. */
  function Term(field: Field, criterion: Json): Option<Criterion> {
    if !Truthy(criterion) then None
    else if criterion.JArr? then Some(In(field, criterion.items))
    else Some(Eq(field, criterion))
  }

  /** A lookup value after `CharField.get_prep_value`: a string or None is
      kept and any other value becomes `str(value)`. `Unrendered` stands for
      the `str()` of a non-integral number, a list or a dict, which the model
      does not spell out and lets match no name. */
  datatype Prepped = PStr(s: string) | PNone | Unrendered

  /** `str(k)` for an integer. */
  function IntToString(k: int): (r: string)
    ensures |r| > 0
  {
    if k < 0 then "-" + NatToString(-k) else NatToString(k)
  }

  function Prep(j: Json): (r: Prepped)
    ensures r.PNone? <==> j.JNull?
    ensures j.JStr? ==> r == PStr(j.s)
  {
    match j
    case JNull => PNone
    case JStr(s) => PStr(s)
    case JBool(b) => PStr(if b then "True" else "False")
    case JNum(n) => if n == n.Floor as real then PStr(IntToString(n.Floor)) else Unrendered
    case _ => Unrendered
  }

  /** Each value of an `__in` list prepared in turn; a prepared None is
      discarded by the lookup and so never matches. */
  function PrepAll(values: seq<Json>): (r: seq<Prepped>)
    ensures |r| == |values|
  {
    seq(|values|, i requires 0 <= i < |values| => Prep(values[i]))
  }

  /** The column value matches a prepared lookup value. */
  predicate Satisfies(c: Case, q: Criterion) {
    match q
    case In(f, values) => PStr(f.Of(c)) in PrepAll(values)
    case Eq(f, value) => PStr(f.Of(c)) == Prep(value)
  }

  /** A case passes the conjunction of the terms. */
  predicate Passes(c: Case, qs: seq<Criterion>) {
    forall i :: 0 <= i < |qs| ==> Satisfies(c, qs[i])
  }

  /** `filters &= Q(...)` for module, test-case type and priority in turn. */
  method BuildFilters(data: map<string, Json>) returns (qs: seq<Criterion>)
    ensures qs == FiltersOf(data)
  {
    qs := [];
    var moduleName := Get(data, "module", JArr([]));
    var testcaseType := Get(data, "testcase_type", JArr([]));
    var priority := Get(data, "priority", JArr([]));
    var t := Term(ModuleName, moduleName);
    if t.Some? {
      qs := qs + [t.value];
    }
    t := Term(TestcaseType, testcaseType);
    if t.Some? {
      qs := qs + [t.value];
    }
    t := Term(PriorityField, priority);
    if t.Some? {
      qs := qs + [t.value];
    }
  }

  /** The criterion semantics: an empty criterion accepts every case, a list
      means that some item, as a string, is the column value, and any other
      value, as a string, must equal it. */
  predicate Meets(c: Case, field: Field, criterion: Json) {
    || !Truthy(criterion)
    || (criterion.JArr? && exists i :: 0 <= i < |criterion.items| && Prep(criterion.items[i]) == PStr(field.Of(c)))
    || (!criterion.JArr? && Prep(criterion) == PStr(field.Of(c)))
  }

  predicate MeetsAll(c: Case, data: map<string, Json>) {
    && Meets(c, ModuleName, Get(data, "module", JArr([])))
    && Meets(c, TestcaseType, Get(data, "testcase_type", JArr([])))
    && Meets(c, PriorityField, Get(data, "priority", JArr([])))
  }

  predicate NoCriteria(data: map<string, Json>) {
    && !Truthy(Get(data, "module", JArr([])))
    && !Truthy(Get(data, "testcase_type", JArr([])))
    && !Truthy(Get(data, "priority", JArr([])))
  }

  /** `queryset.filter(filters)`: the passing cases in query order. */
  function FilterCases(cases: seq<Case>, qs: seq<Criterion>): (r: seq<Case>)
    ensures |r| <= |cases|
  {
    if |cases| == 0 then []
    else Kept(cases[0], qs) + FilterCases(cases[1..], qs)
  }

  /** One case as the filter sees it: itself if it passes, nothing otherwise. */
  function Kept(c: Case, qs: seq<Criterion>): (r: seq<Case>)
    ensures |r| <= 1
  {
    if Passes(c, qs) then [c] else []
  }

  /** The filter keeps exactly the passing cases, and without terms it keeps
      all of them. */
  lemma {:induction false} FilterCasesSpec(cases: seq<Case>, qs: seq<Criterion>)
    ensures forall c :: c in FilterCases(cases, qs) <==> c in cases && Passes(c, qs)
    ensures |qs| == 0 ==> FilterCases(cases, qs) == cases
  {
    if |cases| > 0 {
      FilterCasesSpec(cases[1..], qs);
      assert cases == [cases[0]] + cases[1..];
    }
  }

  /** The filter keeps query order: filtering a concatenation filters each
      part in turn. */
  lemma {:induction false} FilterCasesConcat(a: seq<Case>, b: seq<Case>, qs: seq<Criterion>)
    ensures FilterCases(a + b, qs) == FilterCases(a, qs) + FilterCases(b, qs)
  {
    if |a| == 0 {
      assert a + b == b;
    } else {
      var head := Kept(a[0], qs);
      assert (a + b)[0] == a[0] && (a + b)[1..] == a[1..] + b;
      calc {
        FilterCases(a + b, qs);
        head + FilterCases(a[1..] + b, qs);
        { FilterCasesConcat(a[1..], b, qs); }
        head + (FilterCases(a[1..], qs) + FilterCases(b, qs));
        (head + FilterCases(a[1..], qs)) + FilterCases(b, qs);
        FilterCases(a, qs) + FilterCases(b, qs);
      }
    }
  }

  function Rows(cases: seq<Case>): seq<Json> {
    seq(|cases|, i requires 0 <= i < |cases| => cases[i].row)
  }

  function ErrorResult(message: string, details: string): map<string, Json> {
    map["error" := JStr(message), "details" := JStr(details), "test_repo" := JBool(false)]
  }

  /** What `get_filtered_data` returns. */
  function FilterOutcome(data: map<string, Json>, query: Result<seq<Case>>, queryError: QueryError): map<string, Json> {
    if query.Err? then
      ErrorResult(if queryError.ValidationError? then "Invalid filter parameters"
                  else "An error occurred while fetching data", queryError.details)
    else
      var kept := FilterCases(query.value, FiltersOf(data));
      if |kept| == 0 then map["test_repo" := JBool(false), "tcs" := JObj(map[])]
      else map["test_repo" := JBool(true), "tcs" := JArr(Rows(kept))]
  }

  /** `get_filtered_data` */
  method GetFilteredData(data: map<string, Json>, query: Result<seq<Case>>, queryError: QueryError)
    returns (r: map<string, Json>)
    ensures r == FilterOutcome(data, query, queryError)
    ensures "test_repo" in r && (r["test_repo"] == JBool(false) || r["test_repo"] == JBool(true))
    ensures query.Err? ==>
              r == ErrorResult(if queryError.ValidationError? then "Invalid filter parameters"
                               else "An error occurred while fetching data", queryError.details)
    ensures query.Ok? ==>
              var kept := FilterCases(query.value, FiltersOf(data));
              && (forall c :: c in kept <==> c in query.value && MeetsAll(c, data))
              && (|kept| == 0 ==> r == map["test_repo" := JBool(false), "tcs" := JObj(map[])])
              && (|kept| > 0 ==> r == map["test_repo" := JBool(true), "tcs" := JArr(Rows(kept))])
    ensures query.Ok? && NoCriteria(data) ==>
              r["test_repo"] == JBool(|query.value| > 0)
  {
    var qs := BuildFilters(data);
    if query.Err? {
      var message := if queryError.ValidationError? then "Invalid filter parameters" else "An error occurred while fetching data";
      return ErrorResult(message, queryError.details);
    }
    var kept := FilterCases(query.value, qs);
    FilterCasesSpec(query.value, qs);
    forall c ensures Passes(c, qs) <==> MeetsAll(c, data) {
      PassesFiltersOf(c, data);
    }
    NoCriteriaNoFilters(data);
    if |kept| == 0 {
      return map["test_repo" := JBool(false), "tcs" := JObj(map[])];
    }
    return map["test_repo" := JBool(true), "tcs" := JArr(Rows(kept))];
  }

  /** The terms `BuildFilters` produces, as a function. */
  function FiltersOf(data: map<string, Json>): seq<Criterion> {
    OptList(Term(ModuleName, Get(data, "module", JArr([])))) +
    OptList(Term(TestcaseType, Get(data, "testcase_type", JArr([])))) +
    OptList(Term(PriorityField, Get(data, "priority", JArr([]))))
  }

  function OptList(t: Option<Criterion>): seq<Criterion> {
    if t.Some? then [t.value] else []
  }

  /** Without any non-empty criterion there is no term, so nothing is
      filtered out. */
  lemma NoCriteriaNoFilters(data: map<string, Json>)
    ensures NoCriteria(data) <==> |FiltersOf(data)| == 0
  {
  }

  lemma TermMeets(c: Case, field: Field, criterion: Json)
    ensures Passes(c, OptList(Term(field, criterion))) <==> Meets(c, field, criterion)
  {
    if Truthy(criterion) {
      var q := Term(field, criterion).value;
      assert OptList(Term(field, criterion)) == [q];
      assert Passes(c, [q]) <==> Satisfies(c, [q][0]);
      if criterion.JArr? {
        var p := PrepAll(criterion.items);
        if PStr(field.Of(c)) in p {
          var i :| 0 <= i < |p| && p[i] == PStr(field.Of(c));
          assert Prep(criterion.items[i]) == PStr(field.Of(c));
        }
        if exists i :: 0 <= i < |criterion.items| && Prep(criterion.items[i]) == PStr(field.Of(c)) {
          var i :| 0 <= i < |criterion.items| && Prep(criterion.items[i]) == PStr(field.Of(c));
          assert p[i] == PStr(field.Of(c));
        }
      }
    }
  }

  /** A criterion that is not a string is compared by its `str()`: a list
      holding the integer k, or k itself when non-zero, matches exactly the
      name `str(k)`; True matches exactly "True"; a list holding None matches
      nothing, since the lookup discards None; a non-empty string matches
      only itself. */
  lemma CoercedCriteria(c: Case, field: Field, k: int, s: string)
    ensures Meets(c, field, JArr([JNum(k as real)])) <==> field.Of(c) == IntToString(k)
    ensures k != 0 ==> (Meets(c, field, JNum(k as real)) <==> field.Of(c) == IntToString(k))
    ensures Meets(c, field, JBool(true)) <==> field.Of(c) == "True"
    ensures !Meets(c, field, JArr([JNull]))
    ensures s != "" ==> (Meets(c, field, JStr(s)) <==> field.Of(c) == s)
  {
    assert (k as real).Floor == k;
    assert [JNum(k as real)][0] == JNum(k as real);
  }

  /** `{"module": [5]}` keeps a case whose module is named "5", and
      `{"priority": True}` one whose priority is "True". */
  lemma NumberCriterionMatchesName(c: Case)
    requires c.moduleName == "5" && c.priority == "True"
    ensures MeetsAll(c, map["module" := JArr([JNum(5.0)]), "priority" := JBool(true)])
  {
    var data := map["module" := JArr([JNum(5.0)]), "priority" := JBool(true)];
    assert Get(data, "module", JArr([])) == JArr([JNum(5.0)]);
    assert Get(data, "priority", JArr([])) == JBool(true);
    assert Get(data, "testcase_type", JArr([])) == JArr([]);
    assert IntToString(5) == "5";
    CoercedCriteria(c, ModuleName, 5, "");
  }

  /** A case passes the accumulated terms exactly when it meets every
      non-empty criterion. */
  lemma PassesFiltersOf(c: Case, data: map<string, Json>)
    ensures Passes(c, FiltersOf(data)) <==> MeetsAll(c, data)
  {
    var a := OptList(Term(ModuleName, Get(data, "module", JArr([]))));
    var b := OptList(Term(TestcaseType, Get(data, "testcase_type", JArr([]))));
    var d := OptList(Term(PriorityField, Get(data, "priority", JArr([]))));
    assert FiltersOf(data) == a + b + d;
    PassesConcat(c, a + b, d);
    PassesConcat(c, a, b);
    TermMeets(c, ModuleName, Get(data, "module", JArr([])));
    TermMeets(c, TestcaseType, Get(data, "testcase_type", JArr([])));
    TermMeets(c, PriorityField, Get(data, "priority", JArr([])));
  }

  lemma PassesConcat(c: Case, p: seq<Criterion>, q: seq<Criterion>)
    ensures Passes(c, p + q) <==> Passes(c, p) && Passes(c, q)
  {
    if Passes(c, p) && Passes(c, q) {
      forall i | 0 <= i < |p + q| ensures Satisfies(c, (p + q)[i]) {
        if i >= |p| {
          assert (p + q)[i] == q[i - |p|];
        }
      }
    }
    if Passes(c, p + q) {
      forall i | 0 <= i < |q| ensures Satisfies(c, q[i]) {
        assert (p + q)[|p| + i] == q[i];
      }
      forall i | 0 <= i < |p| ensures Satisfies(c, p[i]) {
        assert (p + q)[i] == p[i];
      }
    }
  }
}
