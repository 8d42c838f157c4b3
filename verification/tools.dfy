/** The agent tools' shared state and the two tools that write test-plan
    versions. The module-level globals (`_current_session_id`,
    `_current_user_prompt`, `_last_generated_testplan`) are the fields of
    `ToolsState`; the `TestPlanSession` table that `save_version` writes is
    `VersionStore`. The selector, the change detector's language model and
    the database write are parameters. */
module Tools {
  import opened Wrappers
  import opened Json
  import opened Text
  import ChangeDetector

  /** One stored test-plan version: its number and the saved fields. */
  datatype Version = Version(
    number: nat, context: Json, name: Json, description: Json, modules: Json, outputCounts: Json, testcases: Json)

  /** The versions of one session are numbered 1, 2, ... in order. */
  predicate Numbered(vs: seq<Version>) {
    forall i :: 0 <= i < |vs| ==> vs[i].number == i + 1
  }

  /** The stored versions of every session (`TestPlanSession` rows grouped
      by their `AISessionStore` session). */
  class VersionStore {
    var versions: map<Option<string>, seq<Version>>

    ghost predicate Valid()
      reads this
    {
      forall s :: s in versions ==> Numbered(versions[s])
    }

    constructor()
      ensures versions == map[]
      ensures Valid()
    {
      versions := map[];
    }

    function VersionsOf(session: Option<string>): seq<Version>
      reads this
    {
      if session in versions then versions[session] else []
    }

    /** `TestPlanSession.objects.filter(session=...).count()` */
    function Count(session: Option<string>): nat
      reads this
    {
      |VersionsOf(session)|
    }

    /** `save_version`: appends one row to the session's versions. */
    method SaveVersion(session: Option<string>, v: Version)
      modifies this
      ensures versions == old(versions)[session := old(VersionsOf(session)) + [v]]
    {
      versions := versions[session := VersionsOf(session) + [v]];
    }
  }

  /** Appending the version numbered count + 1 keeps every session numbered
      1..n. */
  lemma AppendNextKeepsNumbered(vs: seq<Version>, v: Version)
    requires Numbered(vs) && v.number == |vs| + 1
    ensures Numbered(vs + [v])
  {
  }

  /** A tool's status reply. */
  datatype ToolResponse = ToolResponse(status: int, message: string, data: Option<Json>, versionSaved: Option<nat>)

  const NO_SAVE_ADVISORY: string :=
    "This test plan is not saved. The test plan is temporarily visible, and if you change the version, the generated test cases will not be shown."

  /** `d.get("data", {}).get("testcases", [])`; None when the "data" value is
      not a dict and `.get` raises. */
  function TestcasesOf(d: map<string, Json>): Option<Json> {
    match Get(d, "data", JObj(map[]))
    case JObj(data) => Some(Get(data, "testcases", JArr([])))
    case _ => None
  }

  /** A present, truthy test-case list implies a "data" dict. */
  lemma TestcasesOfTruthy(d: map<string, Json>)
    requires TestcasesOf(d).Some? && Truthy(TestcasesOf(d).value)
    ensures "data" in d && d["data"].JObj?
  {
  }

  function StrList(xs: seq<string>): (j: Json)
    ensures j.JArr? && |j.items| == |xs|
  {
    JArr(seq(|xs|, i requires 0 <= i < |xs| => JStr(xs[i])))
  }

  function VersionMessage(n: nat): string {
    "This has been saved as version " + NatToString(n)
  }

  /** `tcs_data["data"]` with `version_saved` and `version_message` set. */
  function WithVersionInfo(d: map<string, Json>, n: nat): map<string, Json>
    requires "data" in d && d["data"].JObj?
  {
    d["data" := JObj(d["data"].fields["version_saved" := JNum(n as real)]["version_message" := JStr(VersionMessage(n))])]
  }

  /** `tcs_data["data"]` with the `no_save` advisory set. */
  function WithNoSave(d: map<string, Json>): map<string, Json>
    requires "data" in d && d["data"].JObj?
  {
    d["data" := JObj(d["data"].fields["no_save" := JStr(NO_SAVE_ADVISORY)])]
  }

  /** The selector answered with a non-empty dict whose status is 200. */
  predicate SelectorOk(d: map<string, Json>) {
    |d| > 0 && Get(d, "status", JNull) == JNum(200.0)
  }

  predicate PromptGiven(prompt: Option<string>) {
    prompt.Some? && prompt.value != ""
  }

  /** The save decision of `generate_testplan`: true without a prompt,
      otherwise the change detector's decision. */
  predicate ShouldSave(prompt: Option<string>, sessionId: Option<string>, cache: map<string, string>,
                       llm: (string, string) -> Option<string>)
  {
    !PromptGiven(prompt)
    || ChangeDetector.Decision(cache, ChangeDetector.SessionKey(sessionId), prompt.value, llm)
  }

  /** The cache after the save decision: the prompt is recorded for the
      session only when one is given. */
  function CacheAfter(prompt: Option<string>, sessionId: Option<string>, cache: map<string, string>): map<string, string> {
    if PromptGiven(prompt) then cache[ChangeDetector.SessionKey(sessionId) := prompt.value] else cache
  }

  /** The language-model calls the save decision makes: one, about the
      session's previous query and the prompt, exactly when the detector
      consults the model. */
  function CallsOf(prompt: Option<string>, sessionId: Option<string>, cache: map<string, string>): seq<(string, string)> {
    var key := ChangeDetector.SessionKey(sessionId);
    if PromptGiven(prompt) && ChangeDetector.AsksLlm(cache, key, prompt.value) then [(cache[key], prompt.value)] else []
  }

  /** The row `generate_testplan` saves. */
  function GeneratedVersion(n: nat, prompt: Option<string>, name: Option<string>, description: Option<string>,
                            moduleNames: seq<string>, outputCounts: Option<int>, testcases: Json): Version
  {
    Version(n, JStr(StrOr(prompt, "No context provided")), JStr(StrOr(name, "Test Plan")),
            JStr(StrOr(description, "Auto-generated test plan")), StrList(moduleNames),
            if outputCounts.Some? then JNum(outputCounts.value as real) else JNull, testcases)
  }

  /** The row `save_new_testplan_version` saves from a stored plan's "data". */
  function StoredVersion(n: nat, data: map<string, Json>, testcases: Json): Version {
    Version(n, Get(data, "description", JStr("AI-generated context")), Get(data, "name", JStr("Test Plan")),
            Get(data, "description", JStr("")), Get(data, "modules", JArr([])), Get(data, "output_counts", JNum(0.0)),
            testcases)
  }

  class ToolsState {
    var currentSessionId: Option<string>
    var currentUserPrompt: Option<string>
    var lastGeneratedTestplan: Option<Json>

    constructor()
      ensures currentSessionId.None? && currentUserPrompt.None? && lastGeneratedTestplan.None?
    {
      currentSessionId := None;
      currentUserPrompt := None;
      lastGeneratedTestplan := None;
    }

    /** `set_last_generated_testplan` */
    method SetLastGeneratedTestplan(planData: Json)
      modifies this
      ensures lastGeneratedTestplan == Some(planData)
      ensures currentSessionId == old(currentSessionId) && currentUserPrompt == old(currentUserPrompt)
    {
      lastGeneratedTestplan := Some(planData);
    }

    /** `get_last_generated_testplan` */
    function GetLastGeneratedTestplan(): Option<Json>
      reads this
    {
      lastGeneratedTestplan
    }

    /** `set_current_session_id`: both globals are assigned first; logging
        `user_prompt[:100]` then raises TypeError when the prompt is None. */
    method SetCurrentSessionId(sessionId: Option<string>, userPrompt: Option<string>) returns (r: Result<()>)
      modifies this
      ensures currentSessionId == sessionId && currentUserPrompt == userPrompt
      ensures lastGeneratedTestplan == old(lastGeneratedTestplan)
      ensures r.Err? <==> userPrompt.None?
      ensures r.Err? ==> r.error == TypeError
    {
      currentSessionId := sessionId;
      currentUserPrompt := userPrompt;
      if userPrompt.None? {
        return Err(TypeError);
      }
      return Ok(());
    }

    /** `get_current_session_id` */
    function GetCurrentSessionId(): Option<string>
      reads this
    {
      currentSessionId
    }

    /** `get_current_user_prompt` */
    function GetCurrentUserPrompt(): Option<string>
      reads this
    {
      currentUserPrompt
    }

    /** `save_new_testplan_version`: saves the last generated plan as the
        session's next version. `saveRaises` says whether the database write
        raises. */
    method SaveNewTestplanVersion(store: VersionStore, saveRaises: bool) returns (resp: ToolResponse)
      requires store.Valid()
      modifies store
      ensures store.Valid()
      ensures !(lastGeneratedTestplan.Some? && Truthy(lastGeneratedTestplan.value)) ==>
                resp == ToolResponse(400, "No test plan found to save.", None, None) && unchanged(store)
      ensures lastGeneratedTestplan.Some? && Truthy(lastGeneratedTestplan.value) && !lastGeneratedTestplan.value.JObj? ==>
                resp.status == 500 && unchanged(store)
      ensures lastGeneratedTestplan.Some? && lastGeneratedTestplan.value.JObj? && Truthy(lastGeneratedTestplan.value) ==>
                var plan := lastGeneratedTestplan.value.fields;
                && (TestcasesOf(plan).None? ==> resp.status == 500 && unchanged(store))
                && (TestcasesOf(plan).Some? && !Truthy(TestcasesOf(plan).value) ==>
                      resp == ToolResponse(400, "No testcases found to save.", None, None) && unchanged(store))
                && (TestcasesOf(plan).Some? && Truthy(TestcasesOf(plan).value) && saveRaises ==>
                      resp.status == 500 && unchanged(store))
                && (TestcasesOf(plan).Some? && Truthy(TestcasesOf(plan).value) && !saveRaises ==>
                      var n := old(store.Count(currentSessionId)) + 1;
                      && resp == ToolResponse(200, "Test plan saved as version " + NatToString(n),
                                              lastGeneratedTestplan, Some(n))
                      && store.versions == old(store.versions)[currentSessionId :=
                           old(store.VersionsOf(currentSessionId)) + [StoredVersion(n, plan["data"].fields, TestcasesOf(plan).value)]])
    {
      var testplanData := GetLastGeneratedTestplan();
      var sessionId := GetCurrentSessionId();
      if !(testplanData.Some? && Truthy(testplanData.value)) {
        return ToolResponse(400, "No test plan found to save.", None, None);
      }
      if !testplanData.value.JObj? {
        // `.get` on a value that is not a dict
        return ToolResponse(500, "Error: ", None, None);
      }
      var testcases := TestcasesOf(testplanData.value.fields);
      if testcases.None? {
        return ToolResponse(500, "Error: ", None, None);
      }
      if !Truthy(testcases.value) {
        return ToolResponse(400, "No testcases found to save.", None, None);
      }
      TestcasesOfTruthy(testplanData.value.fields);
      var nextVersion := store.Count(sessionId) + 1;
      if saveRaises {
        return ToolResponse(500, "Error: ", None, None);
      }
      var data := testplanData.value.fields["data"].fields;
      AppendNextKeepsNumbered(store.VersionsOf(sessionId), StoredVersion(nextVersion, data, testcases.value));
      store.SaveVersion(sessionId, StoredVersion(nextVersion, data, testcases.value));
      return ToolResponse(200, "Test plan saved as version " + NatToString(nextVersion), testplanData, Some(nextVersion));
    }

    /** `generate_testplan` as intended, with a selector that accepts the
        priorities. The `sessionIdArg` and `userPromptArg` arguments are
        ignored in favour of the globals. `selector` stands for
        `intelligent_testcase_selector`; `saveRaises` says whether the
        database write raises. */
    method GenerateTestplan(
      name: Option<string>, description: Option<string>, outputCounts: Option<int>,
      moduleNames: Option<seq<string>>, priority: Option<seq<string>>,
      userPromptArg: Option<string>, sessionIdArg: Option<string>,
      selector: (string, seq<string>, seq<string>, int, Option<string>) -> map<string, Json>,
      detector: ChangeDetector.QueryChangeDetector, llm: (string, string) -> Option<string>,
      store: VersionStore, saveRaises: bool)
      returns (r: Option<map<string, Json>>)
      requires store.Valid()
      modifies this, detector, store
      ensures store.Valid()
      ensures currentSessionId == old(currentSessionId) && currentUserPrompt == old(currentUserPrompt)
      ensures !(moduleNames.Some? && |moduleNames.value| > 0 && priority.Some? && |priority.value| > 0) ==>
                r.None? && unchanged(this) && unchanged(detector) && unchanged(store)
      ensures moduleNames.Some? && |moduleNames.value| > 0 && priority.Some? && |priority.value| > 0 ==>
                var sel := selector(StrOr(currentUserPrompt, ""), moduleNames.value, priority.value,
                                    IntOr(outputCounts, 10), currentSessionId);
                && (!SelectorOk(sel) ==> r.None? && unchanged(this) && unchanged(detector) && unchanged(store))
                && (SelectorOk(sel) ==> r.Some? && lastGeneratedTestplan == Some(JObj(r.value)))
                && (SelectorOk(sel) ==>
                      && detector.lastQueryCache == CacheAfter(currentUserPrompt, currentSessionId, old(detector.lastQueryCache))
                      && detector.llmCalls == old(detector.llmCalls) + CallsOf(currentUserPrompt, currentSessionId, old(detector.lastQueryCache)))
                && (SelectorOk(sel) ==> GenerateOutcome(
                      sel, ShouldSave(currentUserPrompt, currentSessionId, old(detector.lastQueryCache), llm),
                      currentUserPrompt, old(store.Count(currentSessionId)) + 1, saveRaises) == r.value)
                && (SelectorOk(sel) && Saves(sel, ShouldSave(currentUserPrompt, currentSessionId, old(detector.lastQueryCache), llm), saveRaises) ==>
                      store.versions == old(store.versions)[currentSessionId := old(store.VersionsOf(currentSessionId)) +
                        [GeneratedVersion(old(store.Count(currentSessionId)) + 1, currentUserPrompt, name, description,
                                          moduleNames.value, outputCounts, TestcasesOf(sel).value)]])
                && (SelectorOk(sel) && !Saves(sel, ShouldSave(currentUserPrompt, currentSessionId, old(detector.lastQueryCache), llm), saveRaises) ==>
                      unchanged(store))
    {
      var sessionId := currentSessionId;
      var userPrompt := currentUserPrompt;
      if !(moduleNames.Some? && |moduleNames.value| > 0 && priority.Some? && |priority.value| > 0) {
        return None;
      }
      var tcsData := selector(StrOr(userPrompt, ""), moduleNames.value, priority.value, IntOr(outputCounts, 10), sessionId);
      if !SelectorOk(tcsData) {
        return None;
      }
      var out := KeepGenerated(tcsData, name, description, moduleNames.value, outputCounts, detector, llm, store, saveRaises);
      return Some(out);
    }

    /** The rest of `generate_testplan` once the selector answered with
        status 200: the version handling, then the plan kept as the last
        generated one. */
    method KeepGenerated(
      tcsData: map<string, Json>, name: Option<string>, description: Option<string>,
      moduleNames: seq<string>, outputCounts: Option<int>,
      detector: ChangeDetector.QueryChangeDetector, llm: (string, string) -> Option<string>,
      store: VersionStore, saveRaises: bool)
      returns (out: map<string, Json>)
      requires store.Valid()
      modifies this, detector, store
      ensures store.Valid()
      ensures currentSessionId == old(currentSessionId) && currentUserPrompt == old(currentUserPrompt)
      ensures lastGeneratedTestplan == Some(JObj(out))
      ensures detector.lastQueryCache == CacheAfter(currentUserPrompt, currentSessionId, old(detector.lastQueryCache))
      ensures detector.llmCalls == old(detector.llmCalls) + CallsOf(currentUserPrompt, currentSessionId, old(detector.lastQueryCache))
      ensures var shouldSave := ShouldSave(currentUserPrompt, currentSessionId, old(detector.lastQueryCache), llm);
              && out == GenerateOutcome(tcsData, shouldSave, currentUserPrompt, old(store.Count(currentSessionId)) + 1, saveRaises)
              && (Saves(tcsData, shouldSave, saveRaises) ==>
                    store.versions == old(store.versions)[currentSessionId := old(store.VersionsOf(currentSessionId)) +
                      [GeneratedVersion(old(store.Count(currentSessionId)) + 1, currentUserPrompt, name, description,
                                        moduleNames, outputCounts, TestcasesOf(tcsData).value)]])
              && (!Saves(tcsData, shouldSave, saveRaises) ==> unchanged(store))
    {
      out := HandleVersion(tcsData, currentSessionId, currentUserPrompt, name, description, moduleNames, outputCounts,
                           detector, llm, store, saveRaises);
      SetLastGeneratedTestplan(JObj(out));
    }

    /** `generate_testplan` as written: `intelligent_testcase_selector` has
        no `priority` parameter, so once both module names and priorities are
        given the call raises TypeError for the unexpected keyword, before
        the `try` and before anything is written. Otherwise the guard returns
        None. No plan is ever produced. */
    method GenerateTestplanAsWritten(
      name: Option<string>, description: Option<string>, outputCounts: Option<int>,
      moduleNames: Option<seq<string>>, priority: Option<seq<string>>,
      userPromptArg: Option<string>, sessionIdArg: Option<string>)
      returns (r: Result<Option<map<string, Json>>>)
      ensures r.Ok? ==> r.value.None?
      ensures r.Err? <==> moduleNames.Some? && |moduleNames.value| > 0 && priority.Some? && |priority.value| > 0
      ensures r.Err? ==> r.error == TypeError
    {
      if !(moduleNames.Some? && |moduleNames.value| > 0 && priority.Some? && |priority.value| > 0) {
        return Ok(None);
      }
      return Err(TypeError);
    }

    /** The `try` block of `generate_testplan`: the save decision, the
        version write and the fields added to `tcs_data`. */
    method HandleVersion(
      tcsData: map<string, Json>, sessionId: Option<string>, userPrompt: Option<string>,
      name: Option<string>, description: Option<string>, moduleNames: seq<string>, outputCounts: Option<int>,
      detector: ChangeDetector.QueryChangeDetector, llm: (string, string) -> Option<string>,
      store: VersionStore, saveRaises: bool)
      returns (out: map<string, Json>)
      requires store.Valid()
      modifies detector, store
      ensures store.Valid()
      ensures detector.lastQueryCache == CacheAfter(userPrompt, sessionId, old(detector.lastQueryCache))
      ensures detector.llmCalls == old(detector.llmCalls) + CallsOf(userPrompt, sessionId, old(detector.lastQueryCache))
      ensures var shouldSave := ShouldSave(userPrompt, sessionId, old(detector.lastQueryCache), llm);
              && out == GenerateOutcome(tcsData, shouldSave, userPrompt, old(store.Count(sessionId)) + 1, saveRaises)
              && (Saves(tcsData, shouldSave, saveRaises) ==>
                    store.versions == old(store.versions)[sessionId := old(store.VersionsOf(sessionId)) +
                      [GeneratedVersion(old(store.Count(sessionId)) + 1, userPrompt, name, description,
                                        moduleNames, outputCounts, TestcasesOf(tcsData).value)]])
              && (!Saves(tcsData, shouldSave, saveRaises) ==> unchanged(store))
    {
      var shouldSave := DecideSave(sessionId, userPrompt, detector, llm);
      assert unchanged(store);
      out := WriteVersion(tcsData, shouldSave, sessionId, userPrompt, name, description, moduleNames, outputCounts,
                          store, saveRaises);
    }
  }

  /** The save decision of `generate_testplan`: the change detector is asked
      only when a prompt is given, and only then records the prompt. */
  method DecideSave(sessionId: Option<string>, userPrompt: Option<string>,
                    detector: ChangeDetector.QueryChangeDetector, llm: (string, string) -> Option<string>)
    returns (shouldSave: bool)
    modifies detector
    ensures shouldSave == ShouldSave(userPrompt, sessionId, old(detector.lastQueryCache), llm)
    ensures detector.lastQueryCache == CacheAfter(userPrompt, sessionId, old(detector.lastQueryCache))
    ensures detector.llmCalls == old(detector.llmCalls) + CallsOf(userPrompt, sessionId, old(detector.lastQueryCache))
    ensures !PromptGiven(userPrompt) ==> unchanged(detector)
  {
    shouldSave := true;
    if PromptGiven(userPrompt) {
      shouldSave := detector.ShouldSaveVersion(userPrompt.value, sessionId, llm);
    }
  }

  /** The version write of `generate_testplan` and the fields it adds to
      `tcs_data`, once the save decision is made. */
  method WriteVersion(
    tcsData: map<string, Json>, shouldSave: bool, sessionId: Option<string>, userPrompt: Option<string>,
    name: Option<string>, description: Option<string>, moduleNames: seq<string>, outputCounts: Option<int>,
    store: VersionStore, saveRaises: bool)
    returns (out: map<string, Json>)
    requires store.Valid()
    modifies store
    ensures store.Valid()
    ensures out == GenerateOutcome(tcsData, shouldSave, userPrompt, old(store.Count(sessionId)) + 1, saveRaises)
    ensures Saves(tcsData, shouldSave, saveRaises) ==>
              store.versions == old(store.versions)[sessionId := old(store.VersionsOf(sessionId)) +
                [GeneratedVersion(old(store.Count(sessionId)) + 1, userPrompt, name, description,
                                  moduleNames, outputCounts, TestcasesOf(tcsData).value)]]
    ensures !Saves(tcsData, shouldSave, saveRaises) ==> unchanged(store)
  {
    out := tcsData;
    if shouldSave {
      var testcases := TestcasesOf(tcsData);
      if testcases.None? {
        // `.get` on a "data" value that is not a dict raises; caught
      } else if !Truthy(testcases.value) {
        // nothing to save
      } else {
        TestcasesOfTruthy(tcsData);
        var nextVersion := store.Count(sessionId) + 1;
        if !saveRaises {
          var v := GeneratedVersion(nextVersion, userPrompt, name, description, moduleNames, outputCounts, testcases.value);
          AppendNextKeepsNumbered(store.VersionsOf(sessionId), v);
          store.SaveVersion(sessionId, v);
          out := WithVersionInfo(tcsData, nextVersion);
        }
      }
    } else if PromptGiven(userPrompt) && ChangeDetector.UserRequestedNoSave(userPrompt.value) {
      if "data" in tcsData && tcsData["data"].JObj? {
        out := WithNoSave(tcsData);
      }
      // otherwise `tcs_data["data"][...] = ...` raises; caught
    }
  }

  /** A version is written: saving was decided, the selector returned a
      non-empty test-case list, and the write did not raise. */
  predicate Saves(sel: map<string, Json>, shouldSave: bool, saveRaises: bool) {
    shouldSave && TestcasesOf(sel).Some? && Truthy(TestcasesOf(sel).value) && !saveRaises
  }

  /** The `tcs_data` that `generate_testplan` returns and stores. */
  function GenerateOutcome(sel: map<string, Json>, shouldSave: bool, prompt: Option<string>, next: nat, saveRaises: bool)
    : map<string, Json>
  {
    if Saves(sel, shouldSave, saveRaises) then
      TestcasesOfTruthy(sel);
      WithVersionInfo(sel, next)
    else if !shouldSave && PromptGiven(prompt) && ChangeDetector.UserRequestedNoSave(prompt.value)
            && "data" in sel && sel["data"].JObj? then
      WithNoSave(sel)
    else sel
  }

  /** What `generate_testplan` adds to the selector's answer: the version
      fields exactly when a version is written, the no-save advisory exactly
      when saving was declined on a no-save instruction, and nothing
      else. */
  lemma GenerateOutcomeSpec(sel: map<string, Json>, shouldSave: bool, prompt: Option<string>, next: nat, saveRaises: bool)
    ensures var out := GenerateOutcome(sel, shouldSave, prompt, next, saveRaises);
            && out.Keys == sel.Keys
            && (forall k :: k in sel && k != "data" ==> out[k] == sel[k])
            && (Saves(sel, shouldSave, saveRaises) ==>
                  out["data"].JObj?
                  && out["data"].fields == sel["data"].fields["version_saved" := JNum(next as real)]["version_message" := JStr(VersionMessage(next))])
            && (shouldSave && !Saves(sel, shouldSave, saveRaises) ==> out == sel)
            && (!shouldSave && !(PromptGiven(prompt) && ChangeDetector.UserRequestedNoSave(prompt.value)) ==> out == sel)
            && ("data" in out && out["data"].JObj? && "no_save" in out["data"].fields && !("data" in sel && sel["data"].JObj? && "no_save" in sel["data"].fields)
                ==> !shouldSave && PromptGiven(prompt) && ChangeDetector.UserRequestedNoSave(prompt.value))
  {
    if Saves(sel, shouldSave, saveRaises) {
      TestcasesOfTruthy(sel);
    }
  }

  /** A plan without a prompt is always saved when it has test cases and the
      write succeeds: the change detector is consulted only for a prompt. */
  lemma NoPromptAlwaysSaves(sel: map<string, Json>, sessionId: Option<string>, cache: map<string, string>,
                            llm: (string, string) -> Option<string>, saveRaises: bool)
    requires TestcasesOf(sel).Some? && Truthy(TestcasesOf(sel).value) && !saveRaises
    ensures Saves(sel, ShouldSave(None, sessionId, cache, llm), saveRaises)
    ensures Saves(sel, ShouldSave(Some(""), sessionId, cache, llm), saveRaises)
  {
  }
}
