/**
 * `OrchestratorAgent.orchestrate` and `MultiAgentSystem.execute` (`ai_agent_system.py`):
 * the orchestrator turns the LLM's reply into a workflow, and the system runs its
 * steps in order, handing each known agent its task together with the results so far.
 * Each agent's `process(task)` (its LLM round and tools) is a parameter.
 */
module MultiAgent {
  import opened Wrappers
  import opened Dicts
  import opened Text
  import opened JsonData
  import opened AgentCore

  /** The names of the four worker agents, in the order `execute` searches them. */
  const AgentNames: seq<string> := ["DataAgent", "AnalyzerAgent", "ReporterAgent", "NotificationAgent"]

  /** What `orchestrate` returns when the reply cannot be used. */
  const FallbackWorkflow: seq<(string, Json)> := [("workflow", JArray([])), ("expected_outcome", JString("실패"))]

  /** The JSON extraction in `orchestrate`: only a json fence is recognised; a bare fence is left in place. */
  function ExtractWorkflowText(response: string): (r: string)
    ensures !Contains(response, JsonFence) ==> r == response
    ensures Contains(response, JsonFence) ==> r == FencedBlock(response, JsonFence)
  {
    if Contains(response, JsonFence) then FencedBlock(response, JsonFence) else response
  }

  /** On a json-fenced reply the orchestrator reads the same block as `think` does. */
  lemma WorkflowTextAgreesWithPlanText(a: string, b: string, c: string)
    requires Find(a + JsonFence, JsonFence) == Some(|a|)
    requires Find(b + Fence, Fence) == Some(|b|)
    requires c == [] || c[0] != '`'
    ensures ExtractWorkflowText(a + JsonFence + b + Fence + c) == ExtractPlanText(a + JsonFence + b + Fence + c) == Strip(b)
  {
    var x := b + Fence + c;
    var s := a + JsonFence + x;
    assert s == a + JsonFence + b + Fence + c;
    FindAfterFirst(a, JsonFence, x);
    assert ExtractWorkflowText(s) == FencedBlock(s, JsonFence) == ExtractPlanText(s);
    ExtractJsonFenced(a, b, c);
  }

  /** A value Python's `len` accepts. */
  predicate HasLen(v: Json)
  {
    v.JString? || v.JArray? || v.JObject?
  }

  /**
   * `orchestrate`: the parsed reply is kept when it is a dict whose "workflow" entry is absent or has a
   * length (the `len(...)` in the log line raises otherwise); every failure gives the fallback workflow.
   */
  function Orchestrate(reply: Result<string, string>, loads: string -> Option<Json>): (w: seq<(string, Json)>)
    ensures Iterate(GetOr(w, "workflow", JArray([]))).Ok?
    ensures w == FallbackWorkflow || (reply.Ok? && loads(ExtractWorkflowText(reply.value)) == Some(JObject(w)))
    ensures reply.Err? ==> w == FallbackWorkflow
    ensures reply.Ok? && loads(ExtractWorkflowText(reply.value)) == Some(JObject(w)) ==>
              Get(w, "workflow").None? || HasLen(Get(w, "workflow").value)
    ensures reply.Ok? ==>
              var parsed := loads(ExtractWorkflowText(reply.value));
              if parsed.Some? && parsed.value.JObject? &&
                 (Get(parsed.value.fields, "workflow").None? || HasLen(Get(parsed.value.fields, "workflow").value))
              then w == parsed.value.fields
              else w == FallbackWorkflow
  {
    GetFirst(FallbackWorkflow, "workflow", 0);
    if reply.Err? then FallbackWorkflow
    else match loads(ExtractWorkflowText(reply.value))
      case Some(JObject(fields)) =>
        var steps := Get(fields, "workflow");
        if steps.None? || HasLen(steps.value) then fields else FallbackWorkflow
      case _ => FallbackWorkflow
  }

  /** The worker agent a step names, if any. */
  predicate IsAgent(name: Json)
  {
    name.JString? && name.s in AgentNames
  }

  /** The separator `execute` puts between a task and the earlier results. */
  const ContextHeader: string := "\n\n이전 단계 결과:\n"

  /**
   * `task_with_context`: the task as given while nothing has run yet; afterwards `task += header + dumps(context)`,
   * which appends text to a string, extends a list by the characters, and raises TypeError for anything else.
   */
  function WithContext(task: Json, context: seq<(string, Json)>, dumps: Json -> string): (r: Result<Json, PyError>)
    ensures context == [] ==> r == Ok(task)
    ensures context != [] ==> (r.Ok? <==> task.JString? || task.JArray?)
    ensures context != [] && task.JString? ==> r == Ok(JString(task.s + ContextHeader + dumps(JObject(context))))
    ensures context != [] && !(task.JString? || task.JArray?) ==> r == Err(TypeError)
    ensures context != [] && task.JArray? ==>
              var suffix := ContextHeader + dumps(JObject(context));
              && r.Ok? && r.value.JArray? && |r.value.items| == |task.items| + |suffix|
              && r.value.items[..|task.items|] == task.items
              && forall i :: 0 <= i < |suffix| ==> r.value.items[|task.items| + i] == JString([suffix[i]])
  {
    if context == [] then Ok(task)
    else
      var suffix := ContextHeader + dumps(JObject(context));
      match task
      case JString(s) =>
        assert s + suffix == s + ContextHeader + dumps(JObject(context));
        Ok(JString(s + suffix))
      case JArray(items) => Ok(JArray(items + seq(|suffix|, i requires 0 <= i < |suffix| => JString([suffix[i]]))))
      case _ => Err(TypeError)
  }

  /** An agent's `process(task)`: its report as JSON, or the exception it raised. */
  type Processor = (string, Json) -> Result<Json, PyError>

  /** One entry of `results`. */
  datatype StepResult = StepResult(step: Json, agent: string, result: Json)

  /** What `execute` has built after some steps: the results list and `shared_context`. */
  datatype Progress = Progress(results: seq<StepResult>, context: seq<(string, Json)>)

  /** What `execute` returns. */
  datatype Execution = Execution(workflow: seq<(string, Json)>, results: seq<StepResult>, sharedContext: seq<(string, Json)>)

  /** The steps `execute` runs, one at a time from the first. */
  function RunSteps(steps: seq<Json>, process: Processor, dumps: Json -> string): Result<Progress, PyError>
  {
    if steps == [] then Ok(Progress([], []))
    else
      match RunSteps(steps[..|steps| - 1], process, dumps)
      case Err(e) => Err(e)
      case Ok(p) => RunStep(p, steps[|steps| - 1], process, dumps)
  }

  /** One step of `execute`'s loop. */
  function RunStep(p: Progress, step: Json, process: Processor, dumps: Json -> string): Result<Progress, PyError>
  {
    if !step.JObject? then Err(AttributeError)
    else
      var name := GetOr(step.fields, "agent", JNull);
      if !IsAgent(name) then Ok(p)
      else
        match WithContext(GetOr(step.fields, "task", JNull), p.context, dumps)
        case Err(e) => Err(e)
        case Ok(task) =>
          match process(name.s, task)
          case Err(e) => Err(e)
          case Ok(result) =>
            Ok(Progress(p.results + [StepResult(GetOr(step.fields, "step", JNull), name.s, result)],
                        Put(p.context, name.s, result)))
  }

  /** Once a step raises, the later steps do not run: `execute` raises that exception. */
  lemma {:induction false} ErrorStops(steps: seq<Json>, j: nat, process: Processor, dumps: Json -> string)
    requires j <= |steps|
    requires RunSteps(steps[..j], process, dumps).Err?
    ensures RunSteps(steps, process, dumps) == RunSteps(steps[..j], process, dumps)
  {
    if j < |steps| {
      var prefix := steps[..|steps| - 1];
      assert prefix[..j] == steps[..j];
      ErrorStops(prefix, j, process, dumps);
    } else {
      assert steps[..j] == steps;
    }
  }

  /** The steps that name a worker agent, as (step number, agent) pairs. */
  function KnownSteps(steps: seq<Json>): seq<(Json, string)>
  {
    if steps == [] then []
    else
      var step := steps[|steps| - 1];
      var rest := KnownSteps(steps[..|steps| - 1]);
      if step.JObject? && IsAgent(GetOr(step.fields, "agent", JNull)) then
        rest + [(GetOr(step.fields, "step", JNull), GetOr(step.fields, "agent", JNull).s)]
      else rest
  }

  /** The last result recorded for `agent`, if any. */
  function LastResult(results: seq<StepResult>, agent: string): Option<Json>
  {
    if results == [] then None
    else if results[|results| - 1].agent == agent then Some(results[|results| - 1].result)
    else LastResult(results[..|results| - 1], agent)
  }

  /** The results list has one entry per step that names a worker agent, in step order, and skips all others. */
  lemma {:induction false} ResultsFollowKnownSteps(steps: seq<Json>, process: Processor, dumps: Json -> string)
    requires RunSteps(steps, process, dumps).Ok?
    ensures var p := RunSteps(steps, process, dumps).value;
            |p.results| == |KnownSteps(steps)|
            && forall i :: 0 <= i < |p.results| ==> (p.results[i].step, p.results[i].agent) == KnownSteps(steps)[i]
  {
    if steps != [] {
      ResultsFollowKnownSteps(steps[..|steps| - 1], process, dumps);
    }
  }

  /** `shared_context` maps each agent that ran to its last result, and holds only worker agents, each once. */
  ghost predicate ContextMatches(p: Progress)
  {
    && DistinctKeys(p.context)
    && (forall k :: 0 <= k < |p.context| ==> p.context[k].0 in AgentNames)
    && forall a :: Get(p.context, a) == LastResult(p.results, a)
  }

  /** Recording one more agent's result keeps `shared_context` in step with the results list. */
  lemma RecordKeepsContext(q: Progress, sr: StepResult)
    requires ContextMatches(q) && sr.agent in AgentNames
    ensures ContextMatches(Progress(q.results + [sr], Put(q.context, sr.agent, sr.result)))
  {
    var results := q.results + [sr];
    var context := Put(q.context, sr.agent, sr.result);
    DistinctPut(q.context, sr.agent, sr.result);
    KeysPut(q.context, sr.agent, sr.result);
    forall k | 0 <= k < |context| ensures context[k].0 in AgentNames {
      assert context[k].0 == Keys(context)[k];
      if k < |q.context| {
        assert Keys(context)[k] == Keys(q.context)[k] == q.context[k].0;
      }
    }
    assert results[..|results| - 1] == q.results;
    forall a ensures Get(context, a) == LastResult(results, a) {
      GetPut(q.context, sr.agent, sr.result, a);
    }
  }

  /** One step of the loop keeps `shared_context` in step with the results list. */
  lemma RunStepKeepsContext(q: Progress, step: Json, process: Processor, dumps: Json -> string)
    requires ContextMatches(q) && RunStep(q, step, process, dumps).Ok?
    ensures ContextMatches(RunStep(q, step, process, dumps).value)
  {
    var p := RunStep(q, step, process, dumps).value;
    if p != q {
      var name := GetOr(step.fields, "agent", JNull);
      var task := WithContext(GetOr(step.fields, "task", JNull), q.context, dumps).value;
      var result := process(name.s, task).value;
      var sr := StepResult(GetOr(step.fields, "step", JNull), name.s, result);
      assert p == Progress(q.results + [sr], Put(q.context, sr.agent, sr.result));
      RecordKeepsContext(q, sr);
    }
  }

  /** After any run that completes, `shared_context` maps each agent that ran to its last result, and holds only worker agents, each once. */
  lemma {:induction false} ContextHoldsLastResults(steps: seq<Json>, process: Processor, dumps: Json -> string)
    requires RunSteps(steps, process, dumps).Ok?
    ensures ContextMatches(RunSteps(steps, process, dumps).value)
  {
    if steps != [] {
      var prefix := steps[..|steps| - 1];
      ContextHoldsLastResults(prefix, process, dumps);
      RunStepKeepsContext(RunSteps(prefix, process, dumps).value, steps[|steps| - 1], process, dumps);
    }
  }

  /** When every step is a dict, every named task is a string and no agent raises, `execute` completes. */
  lemma {:induction false} StringTasksComplete(steps: seq<Json>, process: Processor, dumps: Json -> string)
    requires forall i :: 0 <= i < |steps| ==> steps[i].JObject?
    requires forall i :: 0 <= i < |steps| && IsAgent(GetOr(steps[i].fields, "agent", JNull)) ==>
               GetOr(steps[i].fields, "task", JNull).JString?
    requires forall n, t :: process(n, t).Ok?
    ensures RunSteps(steps, process, dumps).Ok?
  {
    if steps != [] {
      var prefix := steps[..|steps| - 1];
      assert forall i :: 0 <= i < |prefix| ==> prefix[i] == steps[i];
      StringTasksComplete(prefix, process, dumps);
    }
  }

  /** A worker step without a "task", after an earlier step has run, makes `execute` raise TypeError (`None += str`). */
  lemma MissingTaskRaises(p: Progress, step: Json, process: Processor, dumps: Json -> string)
    requires p.context != []
    requires step.JObject? && IsAgent(GetOr(step.fields, "agent", JNull))
    requires Get(step.fields, "task").None?
    ensures RunStep(p, step, process, dumps) == Err(TypeError)
  {
  }

  /** `next((a for a in self.agents if a.name == agent_name), None)`: the worker agent with that name. */
  method FindAgent(agentName: Json) returns (agent: Option<string>)
    ensures agent.Some? <==> IsAgent(agentName)
    ensures agent.Some? ==> agentName == JString(agent.value)
  {
    var k := 0;
    while k < |AgentNames|
      invariant k <= |AgentNames|
      invariant forall j :: 0 <= j < k ==> agentName != JString(AgentNames[j])
    {
      if agentName == JString(AgentNames[k]) {
        return Some(AgentNames[k]);
      }
      k := k + 1;
    }
    return None;
  }

  class MultiAgentSystem {
    /** Each worker agent's `process(task)`. */
    const process: Processor

    constructor(process: Processor)
      ensures this.process == process
    {
      this.process := process;
    }

    /**
     * `execute(user_request)`, given the workflow the orchestrator produced: runs the steps in order and
     * returns the workflow, the results and the shared context; raises what a step raises.
     */
    method Execute(workflow: seq<(string, Json)>, dumps: Json -> string) returns (r: Result<Execution, PyError>)
      ensures var steps := Iterate(GetOr(workflow, "workflow", JArray([])));
              && (steps.Err? ==> r == Err(steps.error))
              && (steps.Ok? ==> match RunSteps(steps.value, process, dumps)
                                case Err(e) => r == Err(e)
                                case Ok(p) => r == Ok(Execution(workflow, p.results, p.context)))
    {
      var iterated := Iterate(GetOr(workflow, "workflow", JArray([])));
      if iterated.Err? {
        return Err(iterated.error);
      }
      var steps := iterated.value;
      var results: seq<StepResult> := [];
      var sharedContext: seq<(string, Json)> := [];
      var i := 0;
      while i < |steps|
        invariant i <= |steps|
        invariant RunSteps(steps[..i], process, dumps) == Ok(Progress(results, sharedContext))
      {
        assert steps[..i + 1][..i] == steps[..i];
        var step := steps[i];
        if !step.JObject? {
          ErrorStops(steps, i + 1, process, dumps);
          return Err(AttributeError);
        }
        var agentName := GetOr(step.fields, "agent", JNull);
        var task := GetOr(step.fields, "task", JNull);
        var agent := FindAgent(agentName);
        if agent.Some? {
          var taskWithContext := WithContext(task, sharedContext, dumps);
          if taskWithContext.Err? {
            ErrorStops(steps, i + 1, process, dumps);
            return Err(taskWithContext.error);
          }
          var result := process(agent.value, taskWithContext.value);
          if result.Err? {
            ErrorStops(steps, i + 1, process, dumps);
            return Err(result.error);
          }
          sharedContext := Put(sharedContext, agent.value, result.value);
          results := results + [StepResult(GetOr(step.fields, "step", JNull), agent.value, result.value)];
        }
        i := i + 1;
      }
      assert steps[..i] == steps;
      r := Ok(Execution(workflow, results, sharedContext));
    }
  }

  /** The orchestrator's fallback workflow has no steps, so `execute` returns no results and an empty context. */
  lemma FallbackRunsNothing(process: Processor, dumps: Json -> string)
    ensures Iterate(GetOr(FallbackWorkflow, "workflow", JArray([]))) == Ok([])
    ensures RunSteps([], process, dumps) == Ok(Progress([], []))
  {
    GetFirst(FallbackWorkflow, "workflow", 0);
  }
}
