/** `modify_testplan`: adds test cases to, or removes them from, the last
    generated test plan and immediately saves the result as the session's
    next version. The language model's coverage summary is an oracle answer
    (`None` when the call raises); the database write may raise. */
module ModifyTestplan {
  import opened Wrappers
  import opened Json
  import opened Text
  import opened Tools

  /** What `modify_testplan` returns when it does not raise. */
  datatype ModifyReply =
    | Rejected(status: int, message: string)
    | Modified(content: string, tcsData: seq<Json>)

  /** `existing_plan.get("data", {})` and its `.get("testcases", [])`. The
      plan must be a dict and its "data" a dict; the test cases are used as
      a list. */
  function ExistingOf(plan: Json): Result<(map<string, Json>, seq<Json>)> {
    if !plan.JObj? then Err(AttributeError)
    else
      match Get(plan.fields, "data", JObj(map[]))
      case JObj(data) =>
        (match Get(data, "testcases", JArr([]))
         case JArr(tcs) => Ok((data, tcs))
         case _ => Err(TypeError))
      case _ => Err(AttributeError)
  }

  /** `tc["mode"] = "classic"; tc["generated"] = True` */
  function Tag(tc: Json): (r: Json)
    requires tc.JObj?
    ensures r.JObj? && r.fields.Keys == tc.fields.Keys + {"mode", "generated"}
    ensures r.fields["mode"] == JStr("classic") && r.fields["generated"] == JBool(true)
    ensures forall k :: k in tc.fields && k != "mode" && k != "generated" ==> r.fields[k] == tc.fields[k]
  {
    JObj(tc.fields["mode" := JStr("classic")]["generated" := JBool(true)])
  }

  predicate AllDicts(s: seq<Json>) {
    forall i :: 0 <= i < |s| ==> s[i].JObj?
  }

  function TagAll(s: seq<Json>): (r: seq<Json>)
    requires AllDicts(s)
    ensures |r| == |s|
    ensures forall i :: 0 <= i < |s| ==> r[i] == Tag(s[i])
  {
    seq(|s|, i requires 0 <= i < |s| => Tag(s[i]))
  }

  /** The index of the first element that is not a dict, or the length. */
  function FirstNonDict(s: seq<Json>): (k: nat)
    ensures k <= |s|
    ensures AllDicts(s[..k])
    ensures k < |s| ==> !s[k].JObj?
  {
    if |s| == 0 then 0
    else if !s[0].JObj? then 0
    else
      var k := 1 + FirstNonDict(s[1..]);
      assert forall i :: 1 <= i < k ==> s[..k][i] == s[1..][..k - 1][i - 1];
      k
  }

  /** `tc["id"]` */
  function IdOf(tc: Json): Result<Json> {
    match tc
    case JObj(f) => if "id" in f then Ok(f["id"]) else Err(KeyError("id"))
    case _ => Err(TypeError)
  }

  /** `tc["id"]` as the set compares it: a list or dict id cannot be hashed
      (TypeError), and a boolean id is equal to the number 1 or 0. */
  function IdKey(tc: Json): (r: Result<Json>)
    ensures r.Ok? <==> IdOf(tc).Ok? && Hashable(IdOf(tc).value)
    ensures r.Ok? ==> r.value == HashKey(IdOf(tc).value)
    ensures IdOf(tc).Err? ==> r == IdOf(tc)
  {
    var id :- IdOf(tc);
    if Hashable(id) then Ok(HashKey(id)) else Err(TypeError)
  }

  /** `{tc["id"] for tc in tcs_list}` */
  function IdSet(tcs: seq<Json>): (r: Result<set<Json>>)
    ensures r.Ok? ==> forall i :: 0 <= i < |tcs| ==> IdKey(tcs[i]).Ok? && IdKey(tcs[i]).value in r.value
    ensures r.Ok? ==> forall x :: x in r.value ==> exists i :: 0 <= i < |tcs| && IdKey(tcs[i]) == Ok(x)
    ensures r.Err? ==> exists i :: 0 <= i < |tcs| && IdKey(tcs[i]).Err?
  {
    if |tcs| == 0 then Ok({})
    else
      var id :- IdKey(tcs[0]);
      var rest := IdSet(tcs[1..]);
      if rest.Err? then
        var i :| 0 <= i < |tcs[1..]| && IdKey(tcs[1..][i]).Err?;
        assert IdKey(tcs[i + 1]).Err?;
        rest
      else
        assert forall x :: x in rest.value ==> exists i :: 0 <= i < |tcs| && IdKey(tcs[i]) == Ok(x) by {
          forall x | x in rest.value ensures exists i :: 0 <= i < |tcs| && IdKey(tcs[i]) == Ok(x) {
            var i :| 0 <= i < |tcs[1..]| && IdKey(tcs[1..][i]) == Ok(x);
            assert IdKey(tcs[i + 1]) == Ok(x);
          }
        }
        Ok({id} + rest.value)
  }

  /** `[tc for tc in existing if tc["id"] not in remove_ids]` */
  function RemoveIds(existing: seq<Json>, ids: set<Json>): Result<seq<Json>> {
    if |existing| == 0 then Ok([])
    else
      var id :- IdKey(existing[0]);
      var rest :- RemoveIds(existing[1..], ids);
      Ok(if id in ids then rest else [existing[0]] + rest)
  }

  /** Removal keeps exactly the test cases whose id is not to be removed:
      every kept case's id is outside the set, every such case is kept, and
      ids that match nothing are ignored. It fails exactly when some case
      has no hashable id. The order is stated by `RemoveIdsConcat` and
      `RemoveIdsOne`. */
  lemma RemoveIdsSpec(existing: seq<Json>, ids: set<Json>)
    ensures RemoveIds(existing, ids).Ok? <==> forall i :: 0 <= i < |existing| ==> IdKey(existing[i]).Ok?
    ensures RemoveIds(existing, ids).Ok? ==>
              var r := RemoveIds(existing, ids).value;
              && |r| <= |existing|
              && (forall x :: x in r ==> x in existing && IdKey(x).value !in ids)
              && (forall i :: 0 <= i < |existing| && IdKey(existing[i]).value !in ids ==> existing[i] in r)
              && ((forall i :: 0 <= i < |existing| ==> IdKey(existing[i]).value !in ids) ==> r == existing)
  {
    RemoveIdsOk(existing, ids);
    if RemoveIds(existing, ids).Ok? {
      RemoveIdsSound(existing, ids);
      RemoveIdsComplete(existing, ids);
      if forall i :: 0 <= i < |existing| ==> IdKey(existing[i]).value !in ids {
        RemoveIdsNoMatch(existing, ids);
      }
    }
  }

  lemma {:induction false} RemoveIdsOk(existing: seq<Json>, ids: set<Json>)
    ensures RemoveIds(existing, ids).Ok? <==> forall i :: 0 <= i < |existing| ==> IdKey(existing[i]).Ok?
  {
    if |existing| > 0 {
      RemoveIdsOk(existing[1..], ids);
      if forall i :: 0 <= i < |existing| ==> IdKey(existing[i]).Ok? {
        assert forall i :: 0 <= i < |existing[1..]| ==> existing[1..][i] == existing[i + 1];
      } else if IdKey(existing[0]).Ok? {
        var i :| 0 <= i < |existing| && !IdKey(existing[i]).Ok?;
        assert existing[1..][i - 1] == existing[i];
      }
    }
  }

  lemma {:induction false} RemoveIdsSound(existing: seq<Json>, ids: set<Json>)
    requires RemoveIds(existing, ids).Ok?
    ensures var r := RemoveIds(existing, ids).value;
            && |r| <= |existing|
            && (forall x :: x in r ==> x in existing && IdKey(x).Ok? && IdKey(x).value !in ids)
  {
    if |existing| > 0 {
      RemoveIdsSound(existing[1..], ids);
      assert forall x :: x in existing[1..] ==> x in existing;
    }
  }

  lemma {:induction false} RemoveIdsComplete(existing: seq<Json>, ids: set<Json>)
    requires RemoveIds(existing, ids).Ok?
    ensures forall i :: 0 <= i < |existing| && IdKey(existing[i]).Ok? && IdKey(existing[i]).value !in ids ==>
                          existing[i] in RemoveIds(existing, ids).value
  {
    if |existing| > 0 {
      RemoveIdsComplete(existing[1..], ids);
      var r := RemoveIds(existing, ids).value;
      var rest := RemoveIds(existing[1..], ids).value;
      assert forall x :: x in rest ==> x in r;
      forall i | 0 <= i < |existing| && IdKey(existing[i]).Ok? && IdKey(existing[i]).value !in ids ensures existing[i] in r {
        if i > 0 {
          assert existing[i] == existing[1..][i - 1];
        }
      }
    }
  }

  lemma {:induction false} RemoveIdsNoMatch(existing: seq<Json>, ids: set<Json>)
    requires RemoveIds(existing, ids).Ok?
    requires forall i :: 0 <= i < |existing| ==> IdKey(existing[i]).Ok? && IdKey(existing[i]).value !in ids
    ensures RemoveIds(existing, ids).value == existing
  {
    if |existing| > 0 {
      assert forall i :: 0 <= i < |existing[1..]| ==> existing[1..][i] == existing[i + 1];
      RemoveIdsNoMatch(existing[1..], ids);
      assert existing == [existing[0]] + existing[1..];
    }
  }

  /** Removal works case by case, in order: removing from a concatenation
      succeeds iff removing from both parts does, and then gives the kept
      cases of the first part followed by those of the second. */
  lemma {:induction false} RemoveIdsConcat(a: seq<Json>, b: seq<Json>, ids: set<Json>)
    ensures RemoveIds(a + b, ids).Ok? <==> RemoveIds(a, ids).Ok? && RemoveIds(b, ids).Ok?
    ensures RemoveIds(a + b, ids).Ok? ==>
              RemoveIds(a + b, ids).value == RemoveIds(a, ids).value + RemoveIds(b, ids).value
  {
    if |a| == 0 {
      assert a + b == b;
    } else {
      assert (a + b)[0] == a[0];
      assert (a + b)[1..] == a[1..] + b;
      RemoveIdsConcat(a[1..], b, ids);
      if RemoveIds(a + b, ids).Ok? {
        var rest := RemoveIds(a[1..], ids).value + RemoveIds(b, ids).value;
        assert RemoveIds(a + b, ids).value == (if IdKey(a[0]).value in ids then [] else [a[0]]) + rest;
      }
    }
  }

  /** A single case is kept iff its id is hashable and not to be removed; a
      case without a hashable id makes removal fail. */
  lemma RemoveIdsOne(x: Json, ids: set<Json>)
    ensures IdKey(x).Err? ==> RemoveIds([x], ids) == Err(IdKey(x).error)
    ensures IdKey(x).Ok? && IdKey(x).value in ids ==> RemoveIds([x], ids) == Ok([])
    ensures IdKey(x).Ok? && IdKey(x).value !in ids ==> RemoveIds([x], ids) == Ok([x])
  {
    assert [x][1..] == [];
    assert RemoveIds([], ids) == Ok([]);
    assert [x] + [] == [x];
  }

  /** Python's set semantics for ids: a removal entry with id 1 removes a
      case whose id is `True`, and a list id raises TypeError. */
  lemma IdEquality()
    ensures var byBool := JObj(map["id" := JBool(true)]);
            var byOne := JObj(map["id" := JNum(1.0)]);
            Updated([byBool], false, [byOne]) == Ok([])
    ensures var listId := JObj(map["id" := JArr([])]);
            Updated([], false, [listId]) == Err(TypeError)
            && RemoveIds([listId], {}) == Err(TypeError)
  {
    var byBool := JObj(map["id" := JBool(true)]);
    var byOne := JObj(map["id" := JNum(1.0)]);
    assert IdKey(byOne) == Ok(JNum(1.0));
    assert IdSet([byOne]) == Ok({JNum(1.0)}) by {
      assert [byOne][1..] == [];
      assert IdSet([]) == Ok({});
      assert {JNum(1.0)} + {} == {JNum(1.0)};
    }
    RemoveIdsOne(byBool, {JNum(1.0)});
    var listId := JObj(map["id" := JArr([])]);
    assert IdKey(listId) == Err(TypeError);
    RemoveIdsOne(listId, {});
  }

  /** The version `modify_testplan` writes. */
  function ModifiedVersion(n: nat, data: map<string, Json>, updated: seq<Json>): Version {
    Version(n, Get(data, "description", JStr("AI-modified test plan")), Get(data, "name", JStr("Test Plan")),
            Get(data, "description", JStr("")), Get(data, "modules", JArr([])), JNum(|updated| as real), JArr(updated))
  }

  function SavedContent(coverageImpact: string, n: nat): string {
    coverageImpact + " The modified test plan has been saved as version " + NatToString(n) + "."
  }

  /** The updated list: the plan's cases followed by the tagged additions,
      or the plan's cases minus the removed ids. */
  function Updated(existing: seq<Json>, addData: bool, tcs: seq<Json>): Result<seq<Json>> {
    if addData then
      if AllDicts(tcs) then Ok(existing + TagAll(tcs)) else Err(TypeError)
    else
      var ids :- IdSet(tcs);
      RemoveIds(existing, ids)
  }

  /** `modify_testplan`. The stored last plan is read, never written. */
  method ModifyTestplan(tools: ToolsState, store: VersionStore, sessionId: Option<string>, addData: bool,
                        tcsList: array<Json>, llmAnswer: Option<string>, saveRaises: bool)
    returns (r: Result<ModifyReply>)
    requires store.Valid()
    modifies store, tcsList
    ensures store.Valid()
    ensures var plan := tools.lastGeneratedTestplan;
            !(plan.Some? && Truthy(plan.value)) ==>
              r == Ok(Rejected(400, "No existing test plan found to modify.")) && unchanged(store) && unchanged(tcsList)
    ensures var plan := tools.lastGeneratedTestplan;
            plan.Some? && Truthy(plan.value) && (ExistingOf(plan.value).Err? || llmAnswer.None?) ==>
              r.Err? && unchanged(store) && unchanged(tcsList)
    ensures var plan := tools.lastGeneratedTestplan;
            plan.Some? && Truthy(plan.value) && ExistingOf(plan.value).Ok? && llmAnswer.Some? ==>
              var (data, existing) := ExistingOf(plan.value).value;
              var updated := Updated(existing, addData, old(tcsList[..]));
              var n := old(store.Count(sessionId)) + 1;
              && (updated.Err? || saveRaises ==> r.Err? && unchanged(store))
              && (updated.Ok? && !saveRaises ==>
                    && r == Ok(Modified(SavedContent(Strip(llmAnswer.value), n), updated.value))
                    && store.versions == old(store.versions)[sessionId :=
                         old(store.VersionsOf(sessionId)) + [ModifiedVersion(n, data, updated.value)]])
              && (addData ==>
                    var k := FirstNonDict(old(tcsList[..]));
                    tcsList[..] == TagAll(old(tcsList[..k])) + old(tcsList[k..]))
              && (!addData ==> unchanged(tcsList))
  {
    var existingPlan := tools.lastGeneratedTestplan;
    if !(existingPlan.Some? && Truthy(existingPlan.value)) {
      return Ok(Rejected(400, "No existing test plan found to modify."));
    }
    var existing := ExistingOf(existingPlan.value);
    if existing.Err? {
      return Err(existing.error);
    }
    var (existingData, existingTestcases) := existing.value;
    if llmAnswer.None? {
      return Err(Raised);
    }
    var coverageImpact := Strip(llmAnswer.value);
    r := UpdateAndSave(store, sessionId, existingData, existingTestcases, addData, tcsList, coverageImpact, saveRaises);
  }

  /** The rest of `modify_testplan` once the plan's data and test cases and
      the coverage summary are known: the list is updated and saved as the
      session's next version. */
  method UpdateAndSave(store: VersionStore, sessionId: Option<string>, data: map<string, Json>, existing: seq<Json>,
                       addData: bool, tcsList: array<Json>, coverageImpact: string, saveRaises: bool)
    returns (r: Result<ModifyReply>)
    requires store.Valid()
    modifies store, tcsList
    ensures store.Valid()
    ensures var updated := Updated(existing, addData, old(tcsList[..]));
            var n := old(store.Count(sessionId)) + 1;
            && (updated.Err? || saveRaises ==> r.Err? && unchanged(store))
            && (updated.Ok? && !saveRaises ==>
                  && r == Ok(Modified(SavedContent(coverageImpact, n), updated.value))
                  && store.versions == old(store.versions)[sessionId :=
                       old(store.VersionsOf(sessionId)) + [ModifiedVersion(n, data, updated.value)]])
            && (addData ==>
                  var k := FirstNonDict(old(tcsList[..]));
                  tcsList[..] == TagAll(old(tcsList[..k])) + old(tcsList[k..]))
            && (!addData ==> unchanged(tcsList))
  {
    var updatedTestcases: seq<Json>;
    if addData {
      var tagged := TagInPlace(tcsList);
      if !tagged {
        return Err(TypeError);
      }
      TagAllNoneLeft(old(tcsList[..]));
      updatedTestcases := existing + tcsList[..];
    } else {
      var removeIds := IdSet(tcsList[..]);
      if removeIds.Err? {
        return Err(removeIds.error);
      }
      var kept := RemoveIds(existing, removeIds.value);
      if kept.Err? {
        return Err(kept.error);
      }
      updatedTestcases := kept.value;
    }
    var nextVersion := store.Count(sessionId) + 1;
    if saveRaises {
      return Err(Raised);
    }
    var v := ModifiedVersion(nextVersion, data, updatedTestcases);
    AppendNextKeepsNumbered(store.VersionsOf(sessionId), v);
    store.SaveVersion(sessionId, v);
    return Ok(Modified(SavedContent(coverageImpact, nextVersion), updatedTestcases));
  }

  /** The tagging loop of the add branch: the dicts of `tcs_list` are tagged
      in place, in order, up to the first element that is not a dict (where
      Python raises a TypeError). */
  method TagInPlace(a: array<Json>) returns (allTagged: bool)
    modifies a
    ensures allTagged <==> AllDicts(old(a[..]))
    ensures var k := FirstNonDict(old(a[..]));
            a[..] == TagAll(old(a[..])[..k]) + old(a[..])[k..]
  {
    var i := 0;
    while i < a.Length
      invariant 0 <= i <= a.Length
      invariant forall j :: 0 <= j < i ==> old(a[j]).JObj? && a[j] == Tag(old(a[j]))
      invariant forall j :: i <= j < a.Length ==> a[j] == old(a[j])
    {
      if !a[i].JObj? {
        TaggedPrefix(old(a[..]), a[..], i);
        FirstNonDictAt(old(a[..]), i);
        return false;
      }
      a[i] := Tag(a[i]);
      i := i + 1;
    }
    TaggedPrefix(old(a[..]), a[..], i);
    assert old(a[..])[..i] == old(a[..]);
    FirstNonDictAll(old(a[..]));
    return true;
  }

  /** A list whose first `k` elements are tagged dicts and whose rest is
      unchanged, as one sequence. */
  lemma TaggedPrefix(before: seq<Json>, after: seq<Json>, k: nat)
    requires k <= |before| == |after|
    requires forall j :: 0 <= j < k ==> before[j].JObj? && after[j] == Tag(before[j])
    requires forall j :: k <= j < |after| ==> after[j] == before[j]
    ensures AllDicts(before[..k])
    ensures after == TagAll(before[..k]) + before[k..]
  {
    var t := TagAll(before[..k]) + before[k..];
    forall j | 0 <= j < |after| ensures after[j] == t[j] {
      if j < k {
        assert before[..k][j] == before[j];
      } else {
        assert t[j] == before[k..][j - k];
      }
    }
  }

  /** When every element is a dict, the in-place tagging leaves the fully
      tagged list: the same length, every element a dict tagged with mode
      "classic" and generated True, its other keys unchanged. */
  lemma TagAllNoneLeft(s: seq<Json>)
    requires AllDicts(s)
    ensures var k := FirstNonDict(s);
            var after := TagAll(s[..k]) + s[k..];
            && k == |s| && after == TagAll(s) && |after| == |s|
            && forall i :: 0 <= i < |s| ==>
                 && after[i].JObj? && after[i].fields["mode"] == JStr("classic")
                 && after[i].fields["generated"] == JBool(true)
                 && forall key :: key in s[i].fields && key != "mode" && key != "generated" ==>
                      key in after[i].fields && after[i].fields[key] == s[i].fields[key]
  {
    FirstNonDictAll(s);
    assert s[..|s|] == s;
    assert TagAll(s) + s[|s|..] == TagAll(s);
  }

  lemma FirstNonDictAt(s: seq<Json>, i: nat)
    requires i < |s| && AllDicts(s[..i]) && !s[i].JObj?
    ensures FirstNonDict(s) == i
  {
  }

  lemma FirstNonDictAll(s: seq<Json>)
    requires AllDicts(s)
    ensures FirstNonDict(s) == |s|
  {
  }

  /** Adding then removing the added ids restores the plan when none of the
      added ids was already in it. */
  lemma AddThenRemove(existing: seq<Json>, added: seq<Json>)
    requires AllDicts(added)
    requires IdSet(added).Ok?
    requires forall i :: 0 <= i < |existing| ==> IdKey(existing[i]).Ok? && IdKey(existing[i]).value !in IdSet(added).value
    ensures Updated(existing, true, added).Ok?
    ensures IdSet(TagAll(added)) == IdSet(added)
    ensures RemoveIds(Updated(existing, true, added).value, IdSet(added).value) == Ok(existing)
  {
    TagKeepsIds(added);
    RemoveAppended(existing, TagAll(added), IdSet(added).value);
  }

  lemma {:induction false} TagKeepsIds(s: seq<Json>)
    requires AllDicts(s)
    ensures IdSet(TagAll(s)) == IdSet(s)
  {
    if |s| > 0 {
      assert IdKey(Tag(s[0])) == IdKey(s[0]);
      assert TagAll(s)[1..] == TagAll(s[1..]);
      TagKeepsIds(s[1..]);
    }
  }

  /** Removing a set that matches every appended case and none of the
      existing ones gives back exactly the existing list. */
  lemma RemoveAppended(existing: seq<Json>, added: seq<Json>, ids: set<Json>)
    requires forall i :: 0 <= i < |existing| ==> IdKey(existing[i]).Ok? && IdKey(existing[i]).value !in ids
    requires forall i :: 0 <= i < |added| ==> IdKey(added[i]).Ok? && IdKey(added[i]).value in ids
    ensures RemoveIds(existing + added, ids) == Ok(existing)
  {
    RemoveIdsOk(existing, ids);
    RemoveIdsNoMatch(existing, ids);
    RemoveAllAdded(added, ids);
    RemoveIdsConcat(existing, added, ids);
    assert existing + [] == existing;
  }

  lemma {:induction false} RemoveAllAdded(added: seq<Json>, ids: set<Json>)
    requires forall i :: 0 <= i < |added| ==> IdKey(added[i]).Ok? && IdKey(added[i]).value in ids
    ensures RemoveIds(added, ids) == Ok([])
  {
    if |added| > 0 {
      RemoveAllAdded(added[1..], ids);
    }
  }
}
