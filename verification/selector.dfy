/** `intelligent_testcase_selector`: resolves the module names, fetches the
    scored candidates, lets a language model pick the most relevant ones,
    asks it for a coverage warning and per-case reasons, and merges the
    reasons into the picked cases by position.

    The database lookups and `generate_score` are parameters (the resolved
    ids and display names, and the scoring outcome); each language-model
    call is an oracle answer, `None` when the call raises; `json.loads` is an
    abstract parser. */
module Selector {
  import opened Wrappers
  import opened Json
  import opened Text

  const MAX_DISPLAY: nat := 5

  // ---------------------------------------------------------------------
  // Plan name and description

  /** The module part of the plan name: the first five names joined with
      ", ", followed by " and K more" when K names are left over. */
  function ModulePart(names: seq<string>): string {
    if |names| > MAX_DISPLAY then
      Join(names[..MAX_DISPLAY], ", ") + " and " + NatToString(|names| - MAX_DISPLAY) + " more"
    else Join(names, ", ")
  }

  const PLAN_PREFIX: string := "Intelligent Plan: "

  function PlanName(names: seq<string>): string {
    PLAN_PREFIX + ModulePart(names)
  }

  function PlanDescription(userQuery: string): string {
    "LLM-assisted selection for: " + userQuery
  }

  /** The plan name mentions each of the first five module names. */
  lemma PlanNameMentions(names: seq<string>, i: nat)
    requires i < |names| && i < MAX_DISPLAY
    ensures Contains(PlanName(names), names[i])
  {
    ModulePartMentions(names, i);
    ContainsPrepend(PLAN_PREFIX, ModulePart(names), names[i]);
  }

  lemma ModulePartMentions(names: seq<string>, i: nat)
    requires i < |names| && i < MAX_DISPLAY
    ensures Contains(ModulePart(names), names[i])
  {
    if |names| > MAX_DISPLAY {
      var shown := names[..MAX_DISPLAY];
      assert shown[i] == names[i];
      var joined := Join(shown, ", ");
      JoinContains(shown, ", ", i);
      ContainsAppend(joined, " and ", names[i]);
      ContainsAppend(joined + " and ", NatToString(|names| - MAX_DISPLAY), names[i]);
      ContainsAppend(joined + " and " + NatToString(|names| - MAX_DISPLAY), " more", names[i]);
    } else {
      JoinContains(names, ", ", i);
    }
  }

  /** The plan name starts with "Intelligent Plan: " and lists all the
      names when there are at most five. */
  lemma PlanNameShort(names: seq<string>)
    ensures StartsWith(PlanName(names), PLAN_PREFIX)
    ensures |names| <= MAX_DISPLAY ==> PlanName(names) == PLAN_PREFIX + Join(names, ", ")
  {
    assert PLAN_PREFIX <= PLAN_PREFIX + ModulePart(names);
  }

  /** With more than five names, the plan name lists the first five and ends
      with " and K more", where the decimal K plus five is the number of
      names. */
  lemma PlanNameLong(names: seq<string>)
    requires |names| > MAX_DISPLAY
    ensures exists count: string ::
              && (forall k :: 0 <= k < |count| ==> IsDigit(count[k]))
              && PlanName(names) == PLAN_PREFIX + Join(names[..MAX_DISPLAY], ", ") + " and " + count + " more"
              && DigitsValue(count) + MAX_DISPLAY == |names|
  {
    var count := NatToString(|names| - MAX_DISPLAY);
    NatToStringRoundTrip(|names| - MAX_DISPLAY);
    var shown := Join(names[..MAX_DISPLAY], ", ");
    assert ModulePart(names) == shown + " and " + count + " more";
    assert PlanName(names) == PLAN_PREFIX + shown + " and " + count + " more";
  }

  /** A substring stays a substring when text is appended. */
  lemma ContainsAppend(s: string, b: string, sub: string)
    requires Contains(s, sub)
    ensures Contains(s + b, sub)
  {
    ContainsIffOccurs(s, sub);
    var k: nat :| OccursAt(s, sub, k);
    assert (s + b)[k..k + |sub|] == s[k..k + |sub|];
    assert OccursAt(s + b, sub, k);
    ContainsIffOccurs(s + b, sub);
  }

  /** A substring stays a substring when text is prepended. */
  lemma ContainsPrepend(a: string, s: string, sub: string)
    requires Contains(s, sub)
    ensures Contains(a + s, sub)
  {
    ContainsIffOccurs(s, sub);
    var k: nat :| OccursAt(s, sub, k);
    assert (a + s)[|a| + k..|a| + k + |sub|] == s[k..k + |sub|];
    assert OccursAt(a + s, sub, |a| + k);
    ContainsIffOccurs(a + s, sub);
  }

  // ---------------------------------------------------------------------
  // Response envelopes

  function Envelope(status: int, data: Json, message: string): map<string, Json> {
    map["status" := JNum(status as real), "data" := data, "status_code" := JNum(status as real), "message" := JStr(message)]
  }

  const NO_MODULES_MESSAGE: string := "Invalid or empty module names."
  const SCORING_FAILED_MESSAGE: string := "Error while fetching testcases. Please retry."
  const SELECTION_FAILED_MESSAGE: string := "Error during intelligent selection. Please retry."
  const REASONING_FAILED: string := "Reasoning generation failed."

  /** The `data` of a successful selection. */
  function SelectionData(name: string, description: string, displayNames: seq<string>, outputCounts: int,
                         testcases: Json, warning: string): map<string, Json>
    requires Len(testcases).Some?
  {
    map["name" := JStr(name), "description" := JStr(description),
        "modules" := JArr(seq(|displayNames|, i requires 0 <= i < |displayNames| => JStr(displayNames[i]))),
        "output_counts" := JNum(outputCounts as real), "project" := JStr("default_project"),
        "generate_test_count" := JNum(Len(testcases).value as real), "testcase_type" := JStr("functional"),
        "testcases" := testcases, "version_info" := JStr(warning)]
  }

  function SuccessResponse(name: string, description: string, displayNames: seq<string>, outputCounts: int,
                           testcases: Json, warning: string): map<string, Json>
    requires Len(testcases).Some?
  {
    Envelope(200, JObj(SelectionData(name, description, displayNames, outputCounts, testcases, warning)), "success")
  }

  // ---------------------------------------------------------------------
  // The stages before the merge

  /** The candidates `score_data.get("data", {}).get("testcases", [])`, or
      `None` when `generate_score`, a lookup or `len` raised. */
  function Candidates(scoreData: Result<Json>): (r: Option<Json>)
    ensures r.Some? ==> Len(r.value).Some?
  {
    match scoreData
    case Err(_) => None
    case Ok(sd) =>
      if !sd.JObj? then None
      else
        match Get(sd.fields, "data", JObj(map[]))
        case JObj(d) =>
          var tcs := Get(d, "testcases", JArr([]));
          if Len(tcs).Some? then Some(tcs) else None
        case _ => None
  }

  /** The text handed to the parser: the stripped answer, cut down to its
      last ```json fence when there is one. */
  function FencedContent(answer: string): string {
    ExtractFence(Strip(answer))
  }

  /** The language model's selection, or `None` when the call raised, the
      text did not parse, or the parsed value has no length. */
  function Selection(answer: Option<string>, parse: Parser): (r: Option<Json>)
    ensures r.Some? ==> Len(r.value).Some?
    ensures r.Some? ==> answer.Some? && parse(FencedContent(answer.value)) == r
  {
    if answer.None? then None
    else
      var parsed := parse(FencedContent(answer.value));
      if parsed.Some? && Len(parsed.value).Some? then parsed else None
  }

  /** The list put in place of the reasoning when generating it fails. */
  function FallbackReasoning(): Json {
    JArr([JObj(map["id" := JNull, "reason" := JStr(REASONING_FAILED)])])
  }

  /** The reasoning list, or the fallback when the call raised, the text did
      not parse, or the parsed value has no length. */
  function Reasoning(answer: Option<string>, parse: Parser): (r: Json)
    ensures Len(r).Some?
    ensures r != FallbackReasoning() ==> answer.Some? && parse(FencedContent(answer.value)) == Some(r)
  {
    if answer.None? then FallbackReasoning()
    else
      var parsed := parse(FencedContent(answer.value));
      if parsed.Some? && Len(parsed.value).Some? then parsed.value else FallbackReasoning()
  }

  /** The warning clean-up: strip, drop every "```", strip again, strip
      double quotes at both ends, and collapse whitespace runs. */
  function CleanWarning(w: string): string {
    CollapseSpaces(StripChar(Strip(ReplaceAll(Strip(w), "```", "")), '"'))
  }

  /** The warning, or "" when the call raised. */
  function Warning(answer: Option<string>): string {
    if answer.None? then "" else CleanWarning(answer.value)
  }

  /** A cleaned warning has no whitespace at either end and no run of
      whitespace inside; a failed call gives the empty warning. */
  lemma WarningSpec(answer: Option<string>)
    ensures Collapsed(Warning(answer))
    ensures answer.None? ==> Warning(answer) == ""
  {
    if answer.Some? {
      CollapseSpacesCollapsed(StripChar(Strip(ReplaceAll(Strip(answer.value), "```", "")), '"'));
    }
  }

  /** Text that is already clean (collapsed, no backtick, no double quote at
      either end) passes through the clean-up unchanged. */
  lemma CleanWarningFixed(t: string)
    requires Collapsed(t)
    requires forall k :: 0 <= k < |t| ==> t[k] != '`'
    requires |t| > 0 ==> t[0] != '"' && t[|t| - 1] != '"'
    ensures CleanWarning(t) == t
  {
    StripUnpadded(t);
    NoCharNoPattern(t, "```");
    TrimUnpadded(t, x => x == '"');
    CollapsedFixed(t);
  }

  // ---------------------------------------------------------------------
  // Merging reasons by position

  function Min(a: nat, b: nat): nat {
    if a <= b then a else b
  }

  /** `j[i]` for a sized value: a list element, a one-character string, or,
      on a dict with string keys, a KeyError carrying the integer key. */
  function Item(j: Json, i: nat): Result<Json>
    requires Len(j).Some? && i < Len(j).value
  {
    match j
    case JArr(a) => Ok(a[i])
    case JStr(s) => Ok(JStr([s[i]]))
    case _ => Err(IntKeyError(i))
  }

  /** `reasoning[i].get("reason", "")` */
  function ReasonAt(reasoning: Json, i: nat): Result<Json>
    requires Len(reasoning).Some? && i < Len(reasoning).value
  {
    var item :- Item(reasoning, i);
    if item.JObj? then Ok(Get(item.fields, "reason", JStr(""))) else Err(AttributeError)
  }

  /** The number of positions the merge visits. */
  function MergeRange(selected: Json, reasoning: Json): nat
    requires Len(selected).Some? && Len(reasoning).Some?
  {
    Min(Len(selected).value, Len(reasoning).value)
  }

  /** What step `i` of the merge raises, if anything: the right-hand side is
      evaluated first, then the target must be a dict. */
  function StepError(selected: Json, reasoning: Json, i: nat): Option<PyError>
    requires Len(selected).Some? && Len(reasoning).Some? && i < MergeRange(selected, reasoning)
  {
    match ReasonAt(reasoning, i)
    case Err(e) => Some(e)
    case Ok(_) =>
      match Item(selected, i)
      case Err(e) => Some(e)
      case Ok(t) => if t.JObj? then None else Some(TypeError)
  }

  predicate MergeOk(selected: Json, reasoning: Json)
    requires Len(selected).Some? && Len(reasoning).Some?
  {
    forall i :: 0 <= i < MergeRange(selected, reasoning) ==> StepError(selected, reasoning, i).None?
  }

  /** `case["reason"] = reason` on a dict case. */
  function SetReason(tc: Json, reason: Result<Json>): Json {
    if tc.JObj? && reason.Ok? then JObj(tc.fields["reason" := reason.value]) else tc
  }

  /** `selected[i]["reason"] = reasoning[i].get("reason", "")` for every
      visited position of a list of cases. */
  function MergedItems(items: seq<Json>, reasoning: Json): (r: seq<Json>)
    requires Len(reasoning).Some?
    ensures |r| == |items|
  {
    var n := MergeRange(JArr(items), reasoning);
    seq(|items|, i requires 0 <= i < |items| => if i < n then SetReason(items[i], ReasonAt(reasoning, i)) else items[i])
  }

  /** The merge gives each visited case the reason at its position (or ""
      when that entry has none), keeps its other keys, and leaves the cases
      past the shorter list untouched. */
  lemma MergedItemsSpec(items: seq<Json>, reasoning: Json, i: nat)
    requires Len(reasoning).Some? && MergeOk(JArr(items), reasoning) && i < |items|
    ensures var r := MergedItems(items, reasoning);
            if i < Len(reasoning).value then
              && items[i].JObj? && reasoning.JArr? && reasoning.items[i].JObj?
              && r[i].JObj? && r[i].fields.Keys == items[i].fields.Keys + {"reason"}
              && r[i].fields["reason"] == Get(reasoning.items[i].fields, "reason", JStr(""))
              && (forall k :: k in items[i].fields && k != "reason" ==> r[i].fields[k] == items[i].fields[k])
            else r[i] == items[i]
  {
    if i < Len(reasoning).value {
      assert StepError(JArr(items), reasoning, i).None?;
    }
  }

  /** Merging the same reasons again changes nothing. */
  lemma MergeIdempotent(items: seq<Json>, reasoning: Json)
    requires Len(reasoning).Some? && MergeOk(JArr(items), reasoning)
    ensures MergeOk(JArr(MergedItems(items, reasoning)), reasoning)
    ensures MergedItems(MergedItems(items, reasoning), reasoning) == MergedItems(items, reasoning)
  {
    var r := MergedItems(items, reasoning);
    var n := MergeRange(JArr(items), reasoning);
    forall i | 0 <= i < n ensures StepError(JArr(r), reasoning, i).None? {
      assert StepError(JArr(items), reasoning, i).None?;
    }
    var rr := MergedItems(r, reasoning);
    forall i | 0 <= i < |r| ensures rr[i] == r[i] {
      if i < n {
        assert StepError(JArr(items), reasoning, i).None?;
        assert r[i].fields["reason" := ReasonAt(reasoning, i).value] == r[i].fields;
        assert rr[i] == SetReason(r[i], ReasonAt(reasoning, i));
      }
    }
  }

  /** The merge loop, writing into the list of selected cases in place. */
  method MergeReasons(items: array<Json>, reasoning: Json) returns (r: Result<()>)
    requires Len(reasoning).Some?
    modifies items
    ensures r.Ok? <==> MergeOk(JArr(old(items[..])), reasoning)
    ensures r.Ok? ==> items[..] == MergedItems(old(items[..]), reasoning)
    ensures r.Err? ==>
              var s := JArr(old(items[..]));
              exists i :: 0 <= i < MergeRange(s, reasoning) && StepError(s, reasoning, i) == Some(r.error)
                          && forall j :: 0 <= j < i ==> StepError(s, reasoning, j).None?
  {
    ghost var s := JArr(items[..]);
    var n := Min(items.Length, Len(reasoning).value);
    var i := 0;
    while i < n
      invariant 0 <= i <= n
      invariant forall j :: 0 <= j < i ==> StepError(s, reasoning, j).None?
      invariant forall j :: 0 <= j < i ==> items[j] == SetReason(s.items[j], ReasonAt(reasoning, j))
      invariant forall j :: i <= j < items.Length ==> items[j] == s.items[j]
    {
      var reason := ReasonAt(reasoning, i);
      if reason.Err? {
        assert StepError(s, reasoning, i) == Some(reason.error);
        return Err(reason.error);
      }
      if !items[i].JObj? {
        assert StepError(s, reasoning, i) == Some(TypeError);
        return Err(TypeError);
      }
      items[i] := JObj(items[i].fields["reason" := reason.value]);
      i := i + 1;
    }
    assert items[..] == MergedItems(s.items, reasoning);
    return Ok(());
  }

  /** The merge on whatever the selection parsed to: a list is merged in
      place; a string or dict raises at the first visited position. */
  method MergeSelection(selected: Json, reasoning: Json) returns (r: Result<Json>)
    requires Len(selected).Some? && Len(reasoning).Some?
    ensures r.Ok? <==> MergeOk(selected, reasoning)
    ensures r.Ok? && selected.JArr? ==> r.value == JArr(MergedItems(selected.items, reasoning))
    ensures r.Ok? && !selected.JArr? ==> r.value == selected && MergeRange(selected, reasoning) == 0
  {
    if selected.JArr? {
      var items := new Json[|selected.items|](i requires 0 <= i < |selected.items| => selected.items[i]);
      assert items[..] == selected.items;
      var m := MergeReasons(items, reasoning);
      if m.Err? {
        return Err(m.error);
      }
      return Ok(JArr(items[..]));
    }
    if MergeRange(selected, reasoning) == 0 {
      return Ok(selected);
    }
    var e := StepError(selected, reasoning, 0);
    if e.None? {
      assert false;
      return Ok(selected);
    }
    return Err(e.value);
  }

  // ---------------------------------------------------------------------
  // intelligent_testcase_selector

  /** `intelligent_testcase_selector`. An exception escaping the merge loop
      is an `Err`; every other failure is a response. */
  method IntelligentTestcaseSelector(
    userQuery: string, moduleNames: seq<string>, outputCounts: int,
    moduleIds: seq<int>, displayNames: seq<string>, scoreData: Result<Json>,
    selectionAnswer: Option<string>, warningAnswer: Option<string>, reasoningAnswer: Option<string>,
    parse: Parser)
    returns (r: Result<map<string, Json>>)
    ensures |moduleIds| == 0 ==> r == Ok(Envelope(400, JObj(map[]), NO_MODULES_MESSAGE))
    ensures |moduleIds| > 0 && Candidates(scoreData).None? ==>
              r == Ok(Envelope(500, JObj(map[]), SCORING_FAILED_MESSAGE))
    ensures |moduleIds| > 0 && Candidates(scoreData).Some? && !Truthy(Candidates(scoreData).value) ==>
              r == Ok(scoreData.value.fields)
    ensures |moduleIds| > 0 && Candidates(scoreData).Some? && Truthy(Candidates(scoreData).value)
            && Selection(selectionAnswer, parse).None? ==>
              r == Ok(Envelope(500, JObj(map[]), SELECTION_FAILED_MESSAGE))
    ensures |moduleIds| > 0 && Candidates(scoreData).Some? && Truthy(Candidates(scoreData).value)
            && Selection(selectionAnswer, parse).Some? ==>
              var selected := Selection(selectionAnswer, parse).value;
              var reasoning := Reasoning(reasoningAnswer, parse);
              && (r.Ok? <==> MergeOk(selected, reasoning))
              && (r.Ok? ==>
                    exists merged: Json ::
                      && Len(merged) == Len(selected)
                      && (selected.JArr? ==> merged == JArr(MergedItems(selected.items, reasoning)))
                      && (!selected.JArr? ==> merged == selected)
                      && r.value == SuccessResponse(PlanName(moduleNames), PlanDescription(userQuery), displayNames,
                                                    outputCounts, merged, Warning(warningAnswer)))
  {
    if |moduleIds| == 0 {
      return Ok(Envelope(400, JObj(map[]), NO_MODULES_MESSAGE));
    }
    var name := PlanName(moduleNames);
    var description := PlanDescription(userQuery);
    var testcases := Candidates(scoreData);
    if testcases.None? {
      return Ok(Envelope(500, JObj(map[]), SCORING_FAILED_MESSAGE));
    }
    if !Truthy(testcases.value) {
      return Ok(scoreData.value.fields);
    }
    var selected := Selection(selectionAnswer, parse);
    if selected.None? {
      return Ok(Envelope(500, JObj(map[]), SELECTION_FAILED_MESSAGE));
    }
    var warning := Warning(warningAnswer);
    var reasoning := Reasoning(reasoningAnswer, parse);
    var merged := MergeSelection(selected.value, reasoning);
    if merged.Err? {
      return Err(merged.error);
    }
    var m := merged.value;
    assert Len(m) == Len(selected.value);
    assert selected.value.JArr? ==> m == JArr(MergedItems(selected.value.items, reasoning));
    r := Ok(SuccessResponse(name, description, displayNames, outputCounts, m, warning));
  }
}
