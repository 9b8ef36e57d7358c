/**
 * `BaseAIAgent` (`ai_agent_system.py`): an agent's tool list, the description of
 * its tools for the prompt, tool dispatch, reading a plan out of the LLM's reply,
 * and carrying the plan out. The LLM, `json.loads`, `json.dumps` and each tool's
 * own `execute` are parameters.
 */
module AgentCore {
  import opened Wrappers
  import opened Dicts
  import opened Text
  import opened JsonData
  import opened AgentTools

  /** The exceptions the agent code can run into. */
  datatype PyError =
    | AttributeError                 // `.get` on a value that is not a dict
    | TypeError                      // iterating a non-iterable, `**` on a non-mapping, a keyword given twice, `+=` on a wrong type
    | ToolNotFound(toolName: Json)   // `ValueError(f"Tool not found: {tool_name}")`
    | ToolRaised(message: string)    // whatever a tool's `execute` raised, by its text

  /** `str(e)` of a failed lookup, for a tool name that is a string. */
  function NotFoundText(name: string): string
  {
    "Tool not found: " + name
  }

  /** A tool's own `execute(**kwargs)`: its result, or the text of what it raised. */
  type Runner = (Tool, seq<(string, Json)>) -> Result<Json, string>

  /** The text an agent without tools shows. */
  const NoToolsText: string := "사용 가능한 도구가 없습니다."

  /** One tool's lines in the tool description; `dumps` is `json.dumps(..., ensure_ascii=False)`. */
  function ToolEntry(t: Tool, dumps: Json -> string): string
  {
    "- " + t.name + ": " + t.description + "\n" + "  Parameters: " + dumps(t.parameters)
  }

  /** The first tool whose name equals `toolName`. */
  function FindTool(tools: seq<Tool>, toolName: Json): (r: Option<nat>)
    ensures r.Some? ==> r.value < |tools| && toolName == JString(tools[r.value].name)
    ensures r.Some? ==> forall j :: 0 <= j < r.value ==> toolName != JString(tools[j].name)
    ensures r.None? <==> forall j :: 0 <= j < |tools| ==> toolName != JString(tools[j].name)
  {
    if tools == [] then None
    else if toolName == JString(tools[0].name) then Some(0)
    else match FindTool(tools[1..], toolName)
      case None => None
      case Some(i) => Some(i + 1)
  }

  /** What `execute_tool(tool_name, **kwargs)` gives once the keyword arguments are bound. */
  function Dispatch(tools: seq<Tool>, toolName: Json, kwargs: seq<(string, Json)>, run: Runner): Result<Json, PyError>
  {
    match FindTool(tools, toolName)
    case None => Err(ToolNotFound(toolName))
    case Some(i) =>
      match run(tools[i], kwargs)
      case Ok(v) => Ok(v)
      case Err(m) => Err(ToolRaised(m))
  }

  /** The outcome recorded for one action. */
  datatype ActionResult = Succeeded(tool: Json, result: Json) | Failed(tool: Json, error: PyError)

  /** What `act` returns. */
  datatype ActReport = ActReport(reasoning: Json, results: seq<ActionResult>)

  /**
   * One action of a plan, inside `act`'s `try`: `parameters` must be a mapping without the keys
   * `tool_name` and `self` (they would bind `execute_tool`'s own parameters twice), then the tool is dispatched.
   */
  function Outcome(tools: seq<Tool>, action: seq<(string, Json)>, run: Runner): (r: ActionResult)
    ensures r.tool == GetOr(action, "tool", JNull)
    ensures r.Succeeded? ==> FindTool(tools, r.tool).Some?
    ensures FindTool(tools, r.tool).None? ==> r.Failed?
    ensures var p := GetOr(action, "parameters", JObject([]));
            if p.JObject? && "tool_name" !in Keys(p.fields) && "self" !in Keys(p.fields) then
              var d := Dispatch(tools, r.tool, p.fields, run);
              && (r.Succeeded? <==> d.Ok?)
              && (r.Succeeded? ==> r.result == d.value)
              && (r.Failed? ==> r.error == d.error)
            else r == Failed(r.tool, TypeError)
  {
    var toolName := GetOr(action, "tool", JNull);
    var parameters := GetOr(action, "parameters", JObject([]));
    if !parameters.JObject? || "tool_name" in Keys(parameters.fields) || "self" in Keys(parameters.fields) then
      Failed(toolName, TypeError)
    else
      match Dispatch(tools, toolName, parameters.fields, run)
      case Ok(v) => Succeeded(toolName, v)
      case Err(e) => Failed(toolName, e)
  }

  /** The elements a Python `for` loop visits in a JSON value: list items, string characters, dict keys. */
  function Iterate(v: Json): (r: Result<seq<Json>, PyError>)
    ensures v.JArray? ==> r == Ok(v.items)
    ensures r.Err? <==> v.JNull? || v.JBool? || v.JNumber?
    ensures r.Err? ==> r.error == TypeError
    ensures v.JString? ==> r.Ok? && |r.value| == |v.s| && forall i :: 0 <= i < |v.s| ==> r.value[i] == JString([v.s[i]])
    ensures v.JObject? ==> r.Ok? && |r.value| == |v.fields| && forall i :: 0 <= i < |v.fields| ==> r.value[i] == JString(v.fields[i].0)
  {
    match v
    case JArray(items) => Ok(items)
    case JString(s) => Ok(seq(|s|, i requires 0 <= i < |s| => JString([s[i]])))
    case JObject(fields) => Ok(seq(|fields|, i requires 0 <= i < |fields| => JString(fields[i].0)))
    case _ => Err(TypeError)
  }

  const JsonFence: string := "```json"
  const Fence: string := "```"

  /** A json fence begins with a bare fence. */
  lemma JsonFenceOpensFence(s: string, j: int)
    ensures OccursAt(s, JsonFence, j) ==> OccursAt(s, Fence, j)
  {
    if OccursAt(s, JsonFence, j) {
      assert JsonFence[..3] == Fence;
      assert s[j..j + 3] == s[j..j + |JsonFence|][..3];
    }
  }

  /** The first fence of `t`, if any, is not followed by a further backtick. */
  predicate ClosedCleanly(t: string)
  {
    match Find(t, Fence)
    case None => true
    case Some(k) => k + 3 == |t| || t[k + 3] != '`'
  }

  /** A json fence that overlaps the fence at `k` without starting there needs a backtick right after that fence. */
  lemma JsonFenceNearFence(t: string, k: int, j: int)
    ensures OccursAt(t, JsonFence, j) && k < j < k + 3 ==> k + 3 < |t| && t[k + 3] == '`'
  {
    if OccursAt(t, JsonFence, j) && k < j < k + 3 {
      assert t[k + 3] == t[j..j + |JsonFence|][k + 3 - j];
    }
  }

  /** Cutting at the first json fence and then at the first fence is cutting at the first fence, when that fence is closed cleanly. */
  lemma UpToThroughJsonFence(t: string)
    requires ClosedCleanly(t)
    ensures UpTo(UpTo(t, JsonFence), Fence) == UpTo(t, Fence)
  {
    forall j | 0 <= j ensures OccursAt(t, JsonFence, j) ==> OccursAt(t, Fence, j) {
      JsonFenceOpensFence(t, j);
    }
    if Contains(t, Fence) {
      var k := Find(t, Fence).value;
      forall j | 0 <= j ensures OccursAt(t, JsonFence, j) ==> j == k || j >= k + 3 {
        JsonFenceNearFence(t, k, j);
      }
      if Contains(t, JsonFence) {
        var m := Find(t, JsonFence).value;
        if m == k {
          forall j | 0 <= j ensures !OccursAt(t[..k], Fence, j) {
            OccursInPrefix(t, Fence, k, j);
          }
        } else {
          forall j | 0 <= j < k ensures !OccursAt(t[..m], Fence, j) {
            OccursInPrefix(t, Fence, m, j);
          }
          OccursInPrefix(t, Fence, m, k);
          FindIsFirst(t[..m], Fence, k);
          assert t[..m][..k] == t[..k];
        }
      }
    }
  }

  /**
   * `response.split(open)[1].split("```")[0].strip()`: the text after the first `open` up to the next
   * fence, trimmed. After a json fence this holds when that next fence is not followed by a further backtick.
   */
  function FencedBlock(response: string, open: string): (r: string)
    requires open == JsonFence || open == Fence
    requires Contains(response, open)
    ensures open == Fence || ClosedCleanly(AfterFirst(response, open)) ==>
              r == Strip(UpTo(AfterFirst(response, open), Fence))
    ensures !Contains(r, Fence)
  {
    var inner := Split(Split(response, open)[1], Fence)[0];
    FencedBlockReads(response, open);
    StripNotContains(inner, Fence);
    Strip(inner)
  }

  /** The two splits in `FencedBlock` cut the text after the first `open` at its first fence. */
  lemma FencedBlockReads(response: string, open: string)
    requires open == JsonFence || open == Fence
    requires Contains(response, open)
    ensures open == Fence || ClosedCleanly(AfterFirst(response, open)) ==>
              Split(Split(response, open)[1], Fence)[0] == UpTo(AfterFirst(response, open), Fence)
  {
    var t := AfterFirst(response, open);
    SplitPieces(response, open);
    SplitPieces(Split(response, open)[1], Fence);
    if open == Fence {
      SplitPieces(t, Fence);
    } else if ClosedCleanly(t) {
      UpToThroughJsonFence(t);
    }
  }

  /** The JSON extraction in `think`: the block after the first json fence, else after the first bare fence, else the whole reply. */
  function ExtractPlanText(response: string): (r: string)
    ensures !Contains(response, Fence) ==> r == response
    ensures Contains(response, JsonFence) && ClosedCleanly(AfterFirst(response, JsonFence)) ==>
              r == Strip(UpTo(AfterFirst(response, JsonFence), Fence))
    ensures !Contains(response, JsonFence) && Contains(response, Fence) ==>
              r == Strip(UpTo(AfterFirst(response, Fence), Fence))
    ensures Contains(response, Fence) ==> !Contains(r, Fence)
  {
    if Contains(response, JsonFence) then
      JsonFenceOpensFence(response, Find(response, JsonFence).value);
      FencedBlock(response, JsonFence)
    else if Contains(response, Fence) then
      FencedBlock(response, Fence)
    else
      response
  }

  /** A json-fenced block is read as the text between its fences, trimmed. */
  lemma ExtractJsonFenced(a: string, b: string, c: string)
    requires Find(a + JsonFence, JsonFence) == Some(|a|)
    requires Find(b + Fence, Fence) == Some(|b|)
    requires c == [] || c[0] != '`'
    ensures ExtractPlanText(a + JsonFence + b + Fence + c) == Strip(b)
  {
    var x := b + Fence + c;
    var s := a + JsonFence + x;
    assert s == a + JsonFence + b + Fence + c;
    FindAfterFirst(a, JsonFence, x);
    assert AfterFirst(s, JsonFence) == x;
    FindAfterFirst(b, Fence, c);
    assert ClosedCleanly(x);
    assert UpTo(x, Fence) == b;
  }

  /** A bare fenced block (no json fence anywhere) is read the same way. */
  lemma ExtractBareFenced(a: string, b: string, c: string)
    requires Find(a + Fence, Fence) == Some(|a|)
    requires Find(b + Fence, Fence) == Some(|b|)
    requires !Contains(a + Fence + b + Fence + c, JsonFence)
    ensures ExtractPlanText(a + Fence + b + Fence + c) == Strip(b)
  {
    var x := b + Fence + c;
    var s := a + Fence + x;
    assert s == a + Fence + b + Fence + c;
    FindAfterFirst(a, Fence, x);
    assert AfterFirst(s, Fence) == x;
    FindAfterFirst(b, Fence, c);
    assert UpTo(x, Fence) == b;
  }

  /** The plan `think` falls back to when the reply cannot be used. */
  const FallbackPlan: seq<(string, Json)> := [("reasoning", JString("계획 수립 실패")), ("actions", JArray([]))]

  /**
   * `think`: the LLM's reply (or what it raised) is reduced to its JSON block and parsed with `loads`
   * (`None` when `json.loads` raises); the plan is used only when it is a dict with a "reasoning" key.
   */
  function Think(reply: Result<string, string>, loads: string -> Option<Json>): (plan: seq<(string, Json)>)
    ensures "reasoning" in Keys(plan)
    ensures plan == FallbackPlan || (reply.Ok? && loads(ExtractPlanText(reply.value)) == Some(JObject(plan)))
    ensures reply.Err? ==> plan == FallbackPlan
    ensures reply.Ok? ==>
              var parsed := loads(ExtractPlanText(reply.value));
              if parsed.Some? && parsed.value.JObject? && "reasoning" in Keys(parsed.value.fields)
              then plan == parsed.value.fields
              else plan == FallbackPlan
  {
    assert Keys(FallbackPlan) == ["reasoning", "actions"];
    if reply.Err? then FallbackPlan
    else match loads(ExtractPlanText(reply.value))
      case Some(JObject(fields)) => if "reasoning" in Keys(fields) then fields else FallbackPlan
      case _ => FallbackPlan
  }

  /**
   * What `act(plan)` promises: one result per action, in order, each the action's `Outcome`. It raises
   * only outside its `try`: when "actions" is not iterable, or (AttributeError) when an action is not a dict.
   */
  predicate ActedOn(tools: seq<Tool>, plan: seq<(string, Json)>, run: Runner, r: Result<ActReport, PyError>)
  {
    var actions := Iterate(GetOr(plan, "actions", JArray([])));
    && (actions.Err? ==> r == Err(actions.error))
    && (actions.Ok? ==> (r.Ok? <==> forall i :: 0 <= i < |actions.value| ==> actions.value[i].JObject?))
    && (r.Err? && actions.Ok? ==> r.error == AttributeError)
    && (r.Ok? ==>
          && actions.Ok? && r.value.reasoning == GetOr(plan, "reasoning", JNull)
          && |r.value.results| == |actions.value|
          && forall i :: 0 <= i < |actions.value| ==>
               r.value.results[i] == Outcome(tools, actions.value[i].fields, run))
  }

  class BaseAIAgent {
    const name: string
    const role: string
    var tools: seq<Tool>

    constructor(name: string, role: string, tools: seq<Tool>)
      ensures this.name == name && this.role == role && this.tools == tools
    {
      this.name := name;
      this.role := role;
      this.tools := tools;
    }

    /** `add_tool`: appends, so tools stay in the order they were added. */
    method AddTool(tool: Tool)
      modifies this
      ensures tools == old(tools) + [tool]
    {
      tools := tools + [tool];
    }

    /** `get_tools_description`: the fixed text without tools, else one entry per tool joined by newlines. */
    method GetToolsDescription(dumps: Json -> string) returns (r: string)
      ensures r == NoToolsText <==> tools == []
      ensures tools != [] ==>
                r == Join(seq(|tools|, i requires 0 <= i < |tools| reads this => ToolEntry(tools[i], dumps)), "\n")
      ensures tools != [] ==> |r| >= 2 + |tools[0].name| && r[..2 + |tools[0].name|] == "- " + tools[0].name
    {
      if tools == [] {
        return NoToolsText;
      }
      var descriptions: seq<string> := [];
      var i := 0;
      while i < |tools|
        invariant i <= |tools|
        invariant |descriptions| == i
        invariant forall k :: 0 <= k < i ==> descriptions[k] == ToolEntry(tools[k], dumps)
      {
        descriptions := descriptions + [ToolEntry(tools[i], dumps)];
        i := i + 1;
      }
      assert descriptions == seq(|tools|, i requires 0 <= i < |tools| reads this => ToolEntry(tools[i], dumps));
      r := Join(descriptions, "\n");
      JoinStartsWithFirst(descriptions, "\n");
      var e := descriptions[0];
      assert e == "- " + tools[0].name + (": " + tools[0].description + "\n" + "  Parameters: " + dumps(tools[0].parameters));
      assert r[..|e|][..2 + |tools[0].name|] == e[..2 + |tools[0].name|];
      assert r[0] == '-' && NoToolsText[0] != '-';
    }

    /** `execute_tool(tool_name, **kwargs)`: runs the first tool with that name, or fails with "Tool not found". */
    method ExecuteTool(toolName: Json, kwargs: seq<(string, Json)>, run: Runner) returns (r: Result<Json, PyError>)
      ensures r == Dispatch(tools, toolName, kwargs, run)
      ensures FindTool(tools, toolName).None? ==> r == Err(ToolNotFound(toolName))
    {
      var i := 0;
      while i < |tools|
        invariant i <= |tools|
        invariant forall j :: 0 <= j < i ==> toolName != JString(tools[j].name)
      {
        if toolName == JString(tools[i].name) {
          var out := run(tools[i], kwargs);
          return if out.Ok? then Ok(out.value) else Err(ToolRaised(out.error));
        }
        i := i + 1;
      }
      return Err(ToolNotFound(toolName));
    }

    /** `act(plan)`: see `ActedOn`. */
    method Act(plan: seq<(string, Json)>, run: Runner) returns (r: Result<ActReport, PyError>)
      ensures ActedOn(tools, plan, run, r)
    {
      var actions := Iterate(GetOr(plan, "actions", JArray([])));
      if actions.Err? {
        return Err(actions.error);
      }
      var xs := actions.value;
      var results: seq<ActionResult> := [];
      var i := 0;
      while i < |xs|
        invariant i <= |xs|
        invariant |results| == i
        invariant forall k :: 0 <= k < i ==> xs[k].JObject? && results[k] == Outcome(tools, xs[k].fields, run)
      {
        if !xs[i].JObject? {
          return Err(AttributeError);
        }
        var action := xs[i].fields;
        var toolName := GetOr(action, "tool", JNull);
        var parameters := GetOr(action, "parameters", JObject([]));
        var outcome: ActionResult;
        if !parameters.JObject? || "tool_name" in Keys(parameters.fields) || "self" in Keys(parameters.fields) {
          outcome := Failed(toolName, TypeError);
        } else {
          var res := ExecuteTool(toolName, parameters.fields, run);
          outcome := if res.Ok? then Succeeded(toolName, res.value) else Failed(toolName, res.error);
        }
        results := results + [outcome];
        i := i + 1;
      }
      r := Ok(ActReport(GetOr(plan, "reasoning", JNull), results));
    }

    /**
     * `process(task)`: think, then act on the plan. `reply` is the LLM's answer to the planning prompt
     * (or the text of what it raised); when it fails, the agent acts on the fallback plan and records nothing.
     */
    method Process(reply: Result<string, string>, loads: string -> Option<Json>, run: Runner)
      returns (r: Result<ActReport, PyError>)
      ensures ActedOn(tools, Think(reply, loads), run, r)
      ensures reply.Err? ==> r == Ok(ActReport(JString("계획 수립 실패"), []))
    {
      var plan := Think(reply, loads);
      r := Act(plan, run);
      if reply.Err? {
        FallbackActsOnNothing();
      }
    }
  }

  /** The fallback plan carries its failure text and no actions. */
  lemma FallbackActsOnNothing()
    ensures GetOr(FallbackPlan, "reasoning", JNull) == JString("계획 수립 실패")
    ensures Iterate(GetOr(FallbackPlan, "actions", JArray([]))) == Ok([])
  {
    assert FallbackPlan[1] == ("actions", JArray([]));
    GetFirst(FallbackPlan, "reasoning", 0);
    GetFirst(FallbackPlan, "actions", 1);
  }

  /** An action that names no tool of the agent is recorded as failed with "Tool not found", never as a success. */
  lemma UnknownToolFails(tools: seq<Tool>, action: seq<(string, Json)>, run: Runner, name: string)
    requires GetOr(action, "tool", JNull) == JString(name)
    requires forall j :: 0 <= j < |tools| ==> tools[j].name != name
    requires var p := GetOr(action, "parameters", JObject([]));
             p.JObject? && "tool_name" !in Keys(p.fields) && "self" !in Keys(p.fields)
    ensures Outcome(tools, action, run) == Failed(JString(name), ToolNotFound(JString(name)))
  {
  }
}
