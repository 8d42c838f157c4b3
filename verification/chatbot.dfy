/** `get_llm_response`: shapes the agent's message list into the chat
    response. The agent run itself is a parameter (the resulting message
    list); `json.loads` is an abstract parser. */
module Chatbot {
  import opened Wrappers
  import opened Json

  datatype MessageKind = Human | Ai | Tool | System

  /** A message of the agent's history. `name` is the tool name of a tool
      message; `structured` is `additional_kwargs.get("structured")`, `JNull`
      when absent. */
  datatype Message = Message(kind: MessageKind, name: string, content: string, structured: Json)

  const PLAN_TOOL: string := "generate_testplan"

  /** `max((i for i, m in enumerate(msgs) if isinstance(m, HumanMessage)), default=-1)` */
  function LastHumanIndex(msgs: seq<Message>): (k: int)
    ensures -1 <= k < |msgs|
    ensures k >= 0 ==> msgs[k].kind == Human
    ensures forall i :: k < i < |msgs| ==> msgs[i].kind != Human
  {
    if |msgs| == 0 then -1
    else if msgs[|msgs| - 1].kind == Human then |msgs| - 1
    else LastHumanIndex(msgs[..|msgs| - 1])
  }

  /** The messages after the last human turn, or none without one. */
  function Window(msgs: seq<Message>): seq<Message> {
    var k := LastHumanIndex(msgs);
    if k >= 0 then msgs[k + 1..] else []
  }

  /** The window is a suffix of the history with no human turn in it that
      starts right after the last human turn; it is empty exactly when there
      is no human turn or the last message is one. */
  lemma WindowSpec(msgs: seq<Message>)
    ensures var w := Window(msgs);
            && |w| <= |msgs| && w == msgs[|msgs| - |w|..]
            && (forall i :: 0 <= i < |w| ==> w[i].kind != Human)
            && (|w| == 0 <==> (forall i :: 0 <= i < |msgs| ==> msgs[i].kind != Human) || msgs[|msgs| - 1].kind == Human)
            && ((exists i :: 0 <= i < |msgs| && msgs[i].kind == Human) ==> msgs[|msgs| - |w| - 1].kind == Human)
  {
    var k := LastHumanIndex(msgs);
    if k < 0 {
      forall i | 0 <= i < |msgs| ensures msgs[i].kind != Human {
      }
    }
  }

  predicate IsPlanMessage(m: Message) {
    m.kind == Tool && m.name == PLAN_TOOL
  }

  /** The position of the first `generate_testplan` tool message. */
  function FirstPlanMessage(w: seq<Message>): (r: Option<nat>)
    ensures r.Some? ==> r.value < |w| && IsPlanMessage(w[r.value])
    ensures r.Some? ==> forall i :: 0 <= i < r.value ==> !IsPlanMessage(w[i])
    ensures r.None? ==> forall i :: 0 <= i < |w| ==> !IsPlanMessage(w[i])
  {
    if |w| == 0 then None
    else if IsPlanMessage(w[0]) then Some(0)
    else
      var r := FirstPlanMessage(w[1..]);
      if r.Some? then Some(r.value + 1) else None
  }

  /** The test-plan data the scan finds: the parsed content of the first
      plan message, `{}` when it does not parse or there is none. */
  function PlanData(w: seq<Message>, parse: Parser): Json {
    match FirstPlanMessage(w)
    case None => JObj(map[])
    case Some(i) => parse(w[i].content).GetOr(JObj(map[]))
  }

  /** Only the first plan message counts: messages after it never change
      what the scan finds. */
  lemma PlanDataPrefix(w: seq<Message>, extra: seq<Message>, parse: Parser)
    requires FirstPlanMessage(w).Some?
    ensures FirstPlanMessage(w + extra) == FirstPlanMessage(w)
    ensures PlanData(w + extra, parse) == PlanData(w, parse)
  {
    var i := FirstPlanMessage(w).value;
    var j := FirstPlanMessage(w + extra);
    assert (w + extra)[i] == w[i];
    assert j.Some?;
  }

  /** The response before the structured fallback. */
  function Response(content: Json, tcsData: Json, suggestions: Json): map<string, Json> {
    map["content" := content, "tcs_data" := tcsData, "suggestions" := suggestions]
  }

  /** The scan of the window: the first plan message sets `tcs_data` and
      ends the scan. */
  method ScanForPlan(w: seq<Message>, parse: Parser) returns (tcsData: Json)
    ensures tcsData == PlanData(w, parse)
  {
    tcsData := JObj(map[]);
    var i := 0;
    while i < |w|
      invariant 0 <= i <= |w|
      invariant forall j :: 0 <= j < i ==> !IsPlanMessage(w[j])
      invariant tcsData == JObj(map[])
    {
      var msg := w[i];
      if msg.kind == Tool && msg.name == PLAN_TOOL {
        var parsed := parse(msg.content);
        tcsData := parsed.GetOr(JObj(map[]));
        assert FirstPlanMessage(w) == Some(i);
        return;
      }
      i := i + 1;
    }
  }

  /** `get_llm_response` on the agent's message list. An empty list makes
      `msgs[-1]` raise; a truthy structured value that is not a dict makes
      `.get` raise. */
  method GetLlmResponse(msgs: seq<Message>, parse: Parser) returns (r: Result<map<string, Json>>)
    ensures |msgs| == 0 ==> r == Err(IndexError)
    ensures r.Ok? ==> r.value.Keys == {"content", "tcs_data", "suggestions"}
    ensures |msgs| > 0 ==>
              var last := msgs[|msgs| - 1];
              var tcs := PlanData(Window(msgs), parse);
              && (Truthy(tcs) || !Truthy(last.structured) ==>
                    r == Ok(Response(JStr(last.content), tcs, JArr([]))))
              && (!Truthy(tcs) && Truthy(last.structured) && !last.structured.JObj? ==> r == Err(AttributeError))
              && (!Truthy(tcs) && Truthy(last.structured) && last.structured.JObj? ==>
                    var sd := last.structured.fields;
                    r == Ok(Response(Get(sd, "base_content", JStr(last.content)), JObj(map[]),
                                     Get(sd, "suggestions", JArr([])))))
  {
    if |msgs| == 0 {
      return Err(IndexError);
    }
    var lastHumanIndex := LastHumanIndex(msgs);
    var lastAfterHuman := if lastHumanIndex >= 0 then msgs[lastHumanIndex + 1..] else [];
    var last := msgs[|msgs| - 1];
    assert lastAfterHuman == Window(msgs);
    var tcsData := ScanForPlan(lastAfterHuman, parse);
    var contentDict := Response(JStr(last.content), tcsData, JArr([]));
    assert contentDict["tcs_data"] == tcsData;
    if !Truthy(contentDict["tcs_data"]) {
      var structuredDict := last.structured;
      if Truthy(structuredDict) {
        if !structuredDict.JObj? {
          return Err(AttributeError);
        }
        var baseContent := Get(structuredDict.fields, "base_content", JStr(last.content));
        var suggestions := Get(structuredDict.fields, "suggestions", JArr([]));
        contentDict := Response(baseContent, JObj(map[]), suggestions);
      }
    }
    return Ok(contentDict);
  }
}
