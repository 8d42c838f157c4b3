/** The conversational test-case filter: per-session state holding the
    accumulated filters and the conversation, a tolerant JSON reader for the
    language model's answer, and the filter merge. The language model is an
    oracle answer (`None` when the call raises), `json.loads` an abstract
    parser, and the repository query a parameter of `get_filtered_data`. */
module TestplanFilter {
  import opened Wrappers
  import opened Json
  import opened Text
  import AiFilter

  datatype Turn = UserTurn(content: string) | ModelTurn(content: string)

  /** One entry of `session_states`. */
  datatype SessionState = SessionState(filters: map<string, Json>, history: seq<Turn>)

  function DefaultState(): SessionState {
    SessionState(map[], [])
  }

  /** `parse_json_from_llm`: the fenced part, stripped, when there is a
      ```json fence, else the whole text; `{}` when it does not parse. */
  function ParseJsonFromLlm(content: string, parse: Parser): Json {
    var text := if Contains(content, "```json") then Strip(ExtractFence(content)) else content;
    parse(text).GetOr(JObj(map[]))
  }

  /** Text without a fence goes to the parser unchanged, and a decode error
      gives the empty dict. */
  lemma ParseJsonFromLlmSpec(content: string, parse: Parser)
    ensures !Contains(content, "```json") && parse(content).Some? ==> ParseJsonFromLlm(content, parse) == parse(content).value
    ensures !Contains(content, "```json") && parse(content).None? ==> ParseJsonFromLlm(content, parse) == JObj(map[])
    ensures Contains(content, "```json") ==>
              var body := Strip(ExtractFence(content));
              && !Contains(body, "```")
              && ParseJsonFromLlm(content, parse) == parse(body).GetOr(JObj(map[]))
  {
    if Contains(content, "```json") {
      var f := ExtractFence(content);
      StripInfix(f);
      ContainsSub(f, Strip(f), "```");
    }
  }

  /** The strip of a string is one of its substrings. */
  lemma StripInfix(s: string)
    ensures exists i, j :: 0 <= i <= j <= |s| && Strip(s) == s[i..j]
  {
    var l := TrimLeft(s, IsSpace);
    var r := TrimRight(l, IsSpace);
    var start := |s| - |l|;
    forall k | 0 <= k < |r| ensures r[k] == s[start + k] {
      assert r[k] == l[k];
    }
    assert r == s[start..start + |r|];
  }

  /** A substring of a string without `pat` has no `pat` either. */
  lemma ContainsSub(s: string, t: string, pat: string)
    requires exists i, j :: 0 <= i <= j <= |s| && t == s[i..j]
    requires !Contains(s, pat)
    ensures !Contains(t, pat)
  {
    var i, j :| 0 <= i <= j <= |s| && t == s[i..j];
    ContainsIffOccurs(s, pat);
    ContainsIffOccurs(t, pat);
    forall k: nat | OccursAt(t, pat, k) ensures OccursAt(s, pat, i + k) {
      forall m | 0 <= m < |pat| ensures s[i + k + m] == pat[m] {
        assert t[k..k + |pat|][m] == t[k + m] == s[i + k + m];
      }
      assert s[i + k..i + k + |pat|] == pat;
    }
  }

  // ---------------------------------------------------------------------
  // merge_filters

  predicate NoDuplicates(xs: seq<Json>) {
    forall i, j :: 0 <= i < j < |xs| ==> xs[i] != xs[j]
  }

  /** `list(set(xs))`, keeping first occurrences in order. */
  function Dedup(xs: seq<Json>): (r: seq<Json>)
    ensures NoDuplicates(r)
    ensures forall x :: x in r <==> x in xs
    ensures |r| <= |xs|
  {
    if |xs| == 0 then []
    else
      var d := Dedup(xs[..|xs| - 1]);
      assert forall x :: x in xs <==> x in xs[..|xs| - 1] || x == xs[|xs| - 1] by {
        assert xs == xs[..|xs| - 1] + [xs[|xs| - 1]];
      }
      if xs[|xs| - 1] in d then d else d + [xs[|xs| - 1]]
  }

  /** The merged value for one key with a truthy new value: a string is
      wrapped in a list, concatenated to the key's current list, and made
      duplicate-free. */
  function MergeValue(existing: map<string, Json>, key: string, values: Json): Result<Json> {
    MergeInto(Get(existing, key, JArr([])), values)
  }

  /** `current + values` made duplicate-free, where a string value is first
      wrapped in a list; both must be lists of hashable values. */
  function MergeInto(current: Json, values: Json): Result<Json> {
    if !(values.JStr? || values.JArr?) || !current.JArr? then Err(TypeError)
    else
      var all := current.items + NewValues(values);
      if AllHashable(all) then Ok(JArr(Dedup(all))) else Err(TypeError)
  }

  function NewValues(values: Json): seq<Json>
    requires values.JStr? || values.JArr?
  {
    if values.JStr? then [values] else values.items
  }

  predicate AllHashable(xs: seq<Json>) {
    forall i :: 0 <= i < |xs| ==> Hashable(xs[i])
  }

  /** The merged value is the duplicate-free union of the key's current
      values and the new ones. */
  lemma MergeValueSpec(existing: map<string, Json>, key: string, values: Json)
    requires MergeValue(existing, key, values).Ok?
    ensures var r := MergeValue(existing, key, values).value;
            var current := Get(existing, key, JArr([]));
            && r.JArr? && NoDuplicates(r.items)
            && (values.JStr? ==> forall x :: x in r.items <==> x in current.items || x == values)
            && (values.JArr? ==> forall x :: x in r.items <==> x in current.items || x in values.items)
  {
    var current := Get(existing, key, JArr([]));
    var all := current.items + NewValues(values);
    assert forall x :: x in all <==> x in current.items || x in NewValues(values);
  }

  /** Keys whose new value is truthy. */
  predicate Updates(newFilters: map<string, Json>, k: string) {
    k in newFilters && Truthy(newFilters[k])
  }

  predicate MergeOk(existing: map<string, Json>, newFilters: map<string, Json>) {
    forall k | k in newFilters :: Truthy(newFilters[k]) ==> MergeValue(existing, k, newFilters[k]).Ok?
  }

  /** The filters after a merge that did not raise. */
  function MergedFilters(existing: map<string, Json>, newFilters: map<string, Json>): (r: map<string, Json>)
    requires MergeOk(existing, newFilters)
    ensures r.Keys == existing.Keys + set k | k in newFilters && Truthy(newFilters[k])
  {
    map k | k in existing.Keys + (set k | k in newFilters && Truthy(newFilters[k]) :: k) ::
      if Updates(newFilters, k) then MergeValue(existing, k, newFilters[k]).value else existing[k]
  }

  /** Merging the same filters a second time changes nothing more. */
  lemma MergeIdempotent(existing: map<string, Json>, newFilters: map<string, Json>)
    requires MergeOk(existing, newFilters)
    ensures MergeOk(MergedFilters(existing, newFilters), newFilters)
    ensures MergedFilters(MergedFilters(existing, newFilters), newFilters) == MergedFilters(existing, newFilters)
  {
    var m := MergedFilters(existing, newFilters);
    forall k | Updates(newFilters, k) ensures MergeValue(m, k, newFilters[k]) == Ok(m[k]) {
      MergeIntoAgain(Get(existing, k, JArr([])), newFilters[k]);
    }
    var mm := MergedFilters(m, newFilters);
    assert mm.Keys == m.Keys;
    forall k | k in m ensures mm[k] == m[k] {
    }
  }

  /** Merging a key's values into its already merged list gives the same
      list. */
  lemma MergeIntoAgain(current: Json, values: Json)
    requires MergeInto(current, values).Ok?
    ensures MergeInto(MergeInto(current, values).value, values) == MergeInto(current, values)
  {
    var vs := NewValues(values);
    var all := current.items + vs;
    var d := Dedup(all);
    forall i | 0 <= i < |d + vs| ensures Hashable((d + vs)[i]) {
      var x := (d + vs)[i];
      if i < |d| {
        assert x == d[i];
      } else {
        assert x == all[|current.items| + i - |d|];
      }
      assert x in all;
      var j :| 0 <= j < |all| && all[j] == x;
    }
    forall i | 0 <= i < |vs| ensures vs[i] in d {
      assert vs[i] == all[|current.items| + i];
    }
    DedupOfDistinct(d);
    DedupAbsorbs(d, vs);
  }

  /** Appending values that are already present to a duplicate-free list
      and de-duplicating gives the list back. */
  lemma {:induction false} DedupAbsorbs(d: seq<Json>, vs: seq<Json>)
    requires Dedup(d) == d
    requires forall i :: 0 <= i < |vs| ==> vs[i] in d
    ensures Dedup(d + vs) == d
    decreases |vs|
  {
    if |vs| == 0 {
      assert d + vs == d;
    } else {
      var xs := d + vs;
      var init := vs[..|vs| - 1];
      assert xs[..|xs| - 1] == d + init;
      assert forall i :: 0 <= i < |init| ==> init[i] == vs[i];
      DedupAbsorbs(d, init);
      assert Dedup(xs[..|xs| - 1]) == d;
      assert xs[|xs| - 1] in d;
      DedupStep(xs);
    }
  }

  lemma DedupStep(xs: seq<Json>)
    requires |xs| > 0 && xs[|xs| - 1] in Dedup(xs[..|xs| - 1])
    ensures Dedup(xs) == Dedup(xs[..|xs| - 1])
  {
  }

  lemma {:induction false} DedupOfDistinct(d: seq<Json>)
    requires NoDuplicates(d)
    ensures Dedup(d) == d
  {
    if |d| > 0 {
      DedupOfDistinct(d[..|d| - 1]);
      assert d[|d| - 1] !in d[..|d| - 1];
      assert d == d[..|d| - 1] + [d[|d| - 1]];
    }
  }

  /** Every key holds its old value or its merged value: what a merge that
      raised part-way leaves behind. */
  predicate PartlyMerged(existing: map<string, Json>, newFilters: map<string, Json>, f: map<string, Json>) {
    && (forall k :: k in f ==> k in existing || Updates(newFilters, k))
    && (forall k :: k in existing ==> k in f)
    && (forall k :: k in f ==>
          (k in existing && f[k] == existing[k]) || (Updates(newFilters, k) && MergeValue(existing, k, newFilters[k]) == Ok(f[k])))
  }

  /** `merge_filters(existing, new_filters)`: the dict is updated key by key,
      so a TypeError part-way leaves the keys already merged merged. */
  method MergeFilters(existing: map<string, Json>, newFilters: map<string, Json>)
    returns (filters: map<string, Json>, r: Result<()>)
    ensures r.Ok? <==> MergeOk(existing, newFilters)
    ensures r.Ok? ==> filters == MergedFilters(existing, newFilters)
    ensures PartlyMerged(existing, newFilters, filters)
  {
    filters := existing;
    var keys := newFilters.Keys;
    while keys != {}
      invariant keys <= newFilters.Keys
      invariant forall k :: k in filters <==> k in existing || (Updates(newFilters, k) && k !in keys)
      invariant forall k :: Updates(newFilters, k) && k !in keys ==> MergeValue(existing, k, newFilters[k]) == Ok(filters[k])
      invariant forall k :: k in filters && !(Updates(newFilters, k) && k !in keys) ==> filters[k] == existing[k]
      decreases keys
    {
      var k :| k in keys;
      var values := newFilters[k];
      if Truthy(values) {
        var merged := MergeValue(filters, k, values);
        assert Get(filters, k, JArr([])) == Get(existing, k, JArr([]));
        assert merged == MergeValue(existing, k, values);
        if merged.Err? {
          assert k in newFilters && Truthy(newFilters[k]) && !MergeValue(existing, k, newFilters[k]).Ok?;
          return filters, Err(merged.error);
        }
        filters := filters[k := merged.value];
      }
      keys := keys - {k};
      assert Updates(newFilters, k) ==> MergeValue(existing, k, newFilters[k]) == Ok(filters[k]);
    }
    MergedFiltersAt(existing, newFilters, filters);
    return filters, Ok(());
  }

  /** A map holding every merged key with its merged value and every other
      key with its old value is the merge. */
  lemma MergedFiltersAt(existing: map<string, Json>, newFilters: map<string, Json>, filters: map<string, Json>)
    requires forall k :: k in filters <==> k in existing || Updates(newFilters, k)
    requires forall k :: Updates(newFilters, k) ==> MergeValue(existing, k, newFilters[k]) == Ok(filters[k])
    requires forall k :: k in filters && !Updates(newFilters, k) ==> filters[k] == existing[k]
    ensures MergeOk(existing, newFilters)
    ensures filters == MergedFilters(existing, newFilters)
  {
    forall k | k in newFilters && Truthy(newFilters[k]) ensures MergeValue(existing, k, newFilters[k]).Ok? {
      assert Updates(newFilters, k);
    }
    var m := MergedFilters(existing, newFilters);
    forall k ensures k in filters <==> k in m {
      assert Updates(newFilters, k) <==> k in newFilters && Truthy(newFilters[k]);
    }
    forall k | k in m ensures filters[k] == m[k] {
    }
  }

  // ---------------------------------------------------------------------
  // The session states

  const NO_FILTERS_CONTENT: string := "Please provide testtype, module or priority classes"
  const FILTERED_CONTENT: string := "Testcases have been filtered as per your requirements."

  /** `any(v for v in llm_filters.values())` */
  predicate HasNewFilters(llmFilters: map<string, Json>) {
    exists k :: k in llmFilters && Truthy(llmFilters[k])
  }

  /** The filtered result with `test_repo` popped when it is truthy. */
  function PopTestRepo(results: map<string, Json>): map<string, Json> {
    if Truthy(Get(results, "test_repo", JNull)) then results - {"test_repo"} else results
  }

  function FlowResponse(content: string, tcsData: Json, suggestions: Json, llmFilters: map<string, Json>): map<string, Json> {
    map["content" := JStr(content), "tcs_data" := tcsData, "suggestions" := suggestions, "filters" := JObj(llmFilters)]
  }

  /** The filter and suggestion fields of a parsed answer, or the error
      reading them raises: the answer and its "filters" must be dicts. */
  function AnswerFields(parsed: Json): Result<(map<string, Json>, Json)> {
    if !parsed.JObj? then Err(AttributeError)
    else
      match Get(parsed.fields, "filters", JObj(map[]))
      case JObj(f) => Ok((f, Get(parsed.fields, "suggestions", JArr([]))))
      case _ => Err(AttributeError)
  }

  class FilterSessions {
    /** `session_states` */
    var sessionStates: map<string, SessionState>

    constructor()
      ensures sessionStates == map[]
    {
      sessionStates := map[];
    }

    function StateOf(sessionId: string): SessionState
      reads this
    {
      if sessionId in sessionStates then sessionStates[sessionId] else DefaultState()
    }

    /** `get_session_state`: creates the default state only for an unknown
        session. */
    method GetSessionState(sessionId: string) returns (state: SessionState)
      modifies this
      ensures sessionId in sessionStates && state == sessionStates[sessionId]
      ensures sessionId in old(sessionStates) ==> sessionStates == old(sessionStates)
      ensures sessionId !in old(sessionStates) ==> sessionStates == old(sessionStates)[sessionId := DefaultState()]
      ensures state == old(StateOf(sessionId))
    {
      if sessionId !in sessionStates {
        sessionStates := sessionStates[sessionId := DefaultState()];
      }
      return sessionStates[sessionId];
    }

    /** `run_filter_flow`. The user turn is recorded before the language
        model is called, the model's turn right after. */
    method RunFilterFlow(userMessage: string, sessionId: string, llmAnswer: Option<string>, parse: Parser,
                         query: Result<seq<AiFilter.Case>>, queryError: AiFilter.QueryError)
      returns (r: Result<map<string, Json>>)
      modifies this
      ensures sessionId in sessionStates
      ensures sessionStates == old(sessionStates)[sessionId := sessionStates[sessionId]]
      ensures FlowOutcome(old(StateOf(sessionId)), userMessage, StrippedAnswer(llmAnswer), parse, query, queryError,
                          sessionStates[sessionId], r)
    {
      var answer := StrippedAnswer(llmAnswer);
      r := RunWithAnswer(userMessage, sessionId, answer, parse, query, queryError);
    }

    /** The flow once the model's answer, stripped, is known (`None` when
        the call raised). */
    method RunWithAnswer(userMessage: string, sessionId: string, answer: Option<string>, parse: Parser,
                         query: Result<seq<AiFilter.Case>>, queryError: AiFilter.QueryError)
      returns (r: Result<map<string, Json>>)
      modifies this
      ensures sessionId in sessionStates
      ensures sessionStates == old(sessionStates)[sessionId := sessionStates[sessionId]]
      ensures FlowOutcome(old(StateOf(sessionId)), userMessage, answer, parse, query, queryError, sessionStates[sessionId], r)
    {
      var state := GetSessionState(sessionId);
      var history := state.history + [UserTurn(userMessage)];
      sessionStates := sessionStates[sessionId := SessionState(state.filters, history)];
      if answer.None? {
        return Err(Raised);
      }
      var rawContent := answer.value;
      history := history + [ModelTurn(rawContent)];
      var filters;
      filters, r := HandleAnswer(state.filters, rawContent, parse, query, queryError);
      sessionStates := sessionStates[sessionId := SessionState(filters, history)];
    }
  }

  /** `response.content.strip()`, or `None` when the model call raised. */
  function StrippedAnswer(llmAnswer: Option<string>): Option<string> {
    if llmAnswer.Some? then Some(Strip(llmAnswer.value)) else None
  }

  /** What one run of the flow does to a session's state `s0`, leaving
      `s1`, and what it returns, given the model's stripped answer: the user
      turn is always recorded; a model call that raised ends the run there;
      otherwise the answer is recorded and handled. */
  ghost predicate FlowOutcome(s0: SessionState, userMessage: string, answer: Option<string>, parse: Parser,
                              query: Result<seq<AiFilter.Case>>, queryError: AiFilter.QueryError,
                              s1: SessionState, r: Result<map<string, Json>>)
  {
    if answer.None? then
      r == Err(Raised) && s1 == SessionState(s0.filters, s0.history + [UserTurn(userMessage)])
    else
      && s1.history == s0.history + [UserTurn(userMessage), ModelTurn(answer.value)]
      && AnswerOutcome(s0.filters, answer.value, parse, query, queryError, s1.filters, r)
  }

  /** What the flow does with the model's stripped answer: the filters it
      leaves in the session and its result. The filters change only when the
      answer carries a truthy filter value; a merge that raises leaves the
      keys merged before it in place. */
  ghost predicate AnswerOutcome(filters0: map<string, Json>, raw: string, parse: Parser,
                                query: Result<seq<AiFilter.Case>>, queryError: AiFilter.QueryError,
                                filters: map<string, Json>, r: Result<map<string, Json>>)
  {
    var fields := AnswerFields(ParseJsonFromLlm(raw, parse));
    && (fields.Err? ==> r == Err(fields.error) && filters == filters0)
    && (fields.Ok? && !HasNewFilters(fields.value.0) ==>
          filters == filters0
          && r == Ok(FlowResponse(NO_FILTERS_CONTENT, JNull, fields.value.1, fields.value.0)))
    && (fields.Ok? && HasNewFilters(fields.value.0) ==>
          var llmFilters := fields.value.0;
          && PartlyMerged(filters0, llmFilters, filters)
          && (r.Ok? <==> MergeOk(filters0, llmFilters))
          && (r.Ok? ==>
                && filters == MergedFilters(filters0, llmFilters)
                && r.value == FlowResponse(FILTERED_CONTENT,
                                           JObj(PopTestRepo(AiFilter.FilterOutcome(filters, query, queryError))),
                                           fields.value.1, llmFilters)))
  }

  /** The part of `run_filter_flow` after the model has answered. */
  method HandleAnswer(filters0: map<string, Json>, rawContent: string, parse: Parser,
                      query: Result<seq<AiFilter.Case>>, queryError: AiFilter.QueryError)
    returns (filters: map<string, Json>, r: Result<map<string, Json>>)
    ensures AnswerOutcome(filters0, rawContent, parse, query, queryError, filters, r)
  {
    filters := filters0;
    var parsedData := ParseJsonFromLlm(rawContent, parse);
    var fields := AnswerFields(parsedData);
    if fields.Err? {
      return filters, Err(fields.error);
    }
    var (llmFilters, suggestions) := fields.value;
    if !HasNewFilters(llmFilters) {
      return filters, Ok(FlowResponse(NO_FILTERS_CONTENT, JNull, suggestions, llmFilters));
    }
    var merged;
    filters, merged := MergeFilters(filters0, llmFilters);
    if merged.Err? {
      return filters, Err(merged.error);
    }
    var results := AiFilter.GetFilteredData(filters, query, queryError);
    r := Ok(FlowResponse(FILTERED_CONTENT, JObj(PopTestRepo(results)), suggestions, llmFilters));
  }
}
