/**
 * The agent tools of the MCP server, emvr/mcp_server/endpoints/agent_endpoints.py:
 * `agent_run` and `agent_run_worker` wrap the global orchestrator's `run` and `run_worker`
 * in a success/error envelope that echoes the conversation's thread id.
 *
 * The caller's `params` dictionary is an object: when it is present and non-empty the
 * endpoint adds its keys to that very dictionary. A generated uuid is a parameter.
 */
module AgentEndpoints {
  import opened Outcomes
  import opened AgentBase
  import SupervisorWorkflow
  import Orchestration

  /** `str(uuid.uuid4())`, which is never empty. */
  type Uuid = s: string | |s| > 0 witness "0"

  const NotInitialized: string := "Agent orchestrator not initialized"

  /** The dictionary both tools return. */
  datatype Envelope = Envelope(success: bool, output: string, threadId: string, error: Option<string>, status: string)

  /** What the envelope reads of an orchestrator result: `response` and `error`. */
  datatype Reply = Reply(response: string, error: Option<string>)

  function FromRun(r: SupervisorWorkflow.RunOutput): Reply
  {
    Reply(r.response, r.error)
  }

  function FromWorker(r: WorkerReply): Reply
  {
    Reply(r.response, r.error)
  }

  /** Python truthiness of `result.get("error")`. */
  predicate Truthy(e: Option<string>)
  {
    e.Some? && e.value != ""
  }

  /** `thread_id or str(uuid.uuid4())`: the supplied id unless it is missing or empty. */
  function ThreadIdOf(given: Option<string>, newId: Uuid): (t: string)
    ensures |t| > 0
    ensures given.Some? && given.value != "" ==> t == given.value
    ensures given.None? || given.value == "" ==> t == newId
  {
    if given.Some? && given.value != "" then given.value else newId
  }

  /**
   * The keyword arguments after `params["thread_id"] = thread_id` and, for a non-empty
   * context, `params["context"] = context`: thread_id always holds the thread id,
   * overwriting any the caller gave, context is replaced only by a non-empty one, and
   * every other key keeps the caller's value.
   */
  function WithRunKeys(base: Params, threadId: string, context: Option<seq<Doc>>): (p: Params)
    ensures "thread_id" in p && p["thread_id"] == TextParam(threadId)
    ensures context.Some? && context.value != [] ==> "context" in p && p["context"] == DocsParam(context.value)
    ensures (context.None? || context.value == []) ==>
              ("context" in p <==> "context" in base) && ("context" in base ==> p["context"] == base["context"])
    ensures forall k :: k in p <==> k in base || k == "thread_id" || (k == "context" && context.Some? && context.value != [])
    ensures forall k :: k in base && k != "thread_id" && k != "context" ==> p[k] == base[k]
  {
    var p := base["thread_id" := TextParam(threadId)];
    if context.Some? && context.value != [] then p["context" := DocsParam(context.value)] else p
  }

  /** The caller's `params` dictionary. */
  class ParamDict {
    var entries: Params

    constructor(entries: Params)
      ensures this.entries == entries
    {
      this.entries := entries;
    }
  }

  /** `params or {}` as a map: no dictionary reads as an empty one. */
  function EntriesOf(d: ParamDict?): Params
    reads d
  {
    if d == null then map[] else d.entries
  }

  /**
   * `params or {}` and the two assignments: a present, non-empty dictionary of the
   * caller's receives the keys itself; otherwise a new dictionary does and the caller's
   * (empty) one stays as it was.
   */
  method PrepareParams(params: ParamDict?, threadId: string, context: Option<seq<Doc>>) returns (wp: ParamDict)
    modifies params
    ensures wp.entries == WithRunKeys(old(EntriesOf(params)), threadId, context)
    ensures params != null && old(params.entries) != map[] ==> wp == params
    ensures params == null || old(params.entries) == map[] ==> fresh(wp)
    ensures params != null && old(params.entries) == map[] ==> params.entries == map[]
  {
    if params != null && params.entries != map[] {
      wp := params;
    } else {
      wp := new ParamDict(map[]);
    }
    wp.entries := wp.entries["thread_id" := TextParam(threadId)];
    if context.Some? && context.value != [] {
      wp.entries := wp.entries["context" := DocsParam(context.value)];
    }
  }

  /**
   * The parameters of the orchestrator method a tool calls, in their order, and its
   * qualified name: a keyword argument with one of those names makes the call raise
   * TypeError "<name>() got multiple values for argument '<parameter>'".
   */
  const RunParameters: seq<string> := ["self", "input_text"]
  const RunWorkerParameters: seq<string> := ["self", "worker_name", "input_text"]

  /** The first of the names that is a key of the keyword arguments. */
  function FirstClash(p: Params, names: seq<string>): (c: Option<string>)
    ensures c.Some? ==> c.value in names && c.value in p
    ensures c.None? <==> forall i :: 0 <= i < |names| ==> names[i] !in p
  {
    if names == [] then None
    else if names[0] in p then Some(names[0])
    else FirstClash(p, names[1..])
  }

  function BindError(qualname: string, parameter: string): string
  {
    qualname + "() got multiple values for argument '" + parameter + "'"
  }

  /** The envelope when no orchestrator has been initialised. */
  function Uninitialized(threadId: string): Envelope
  {
    Envelope(false, "", threadId, Some(NotInitialized), "error")
  }

  /** The envelope of a result: success, and status "error" exactly for a truthy error. */
  function Completed(threadId: string, reply: Reply): Envelope
  {
    Envelope(true, reply.response, threadId, reply.error, if Truthy(reply.error) then "error" else "success")
  }

  /** The envelope of an exception. */
  function Raised(threadId: string, message: string): Envelope
  {
    Envelope(false, "", threadId, Some(message), "error")
  }

  /**
   * `agent_run`, given the registry of the global orchestrator when there is one, the
   * caller's params as a map and a fresh uuid.
   */
  function AgentRunSpec(orchestrator: Option<map<string, Orchestration.Agent>>, query: string,
                        threadId: Option<string>, context: Option<seq<Doc>>, params: Params,
                        newId: Uuid, o: SupervisorWorkflow.Oracles): Envelope
  {
    var t := ThreadIdOf(threadId, newId);
    if orchestrator.None? then Uninitialized(t)
    else
      var p := WithRunKeys(params, t, context);
      var clash := FirstClash(p, RunParameters);
      if clash.Some? then Raised(t, BindError("AgentOrchestrator.run", clash.value))
      else Completed(t, FromRun(SupervisorWorkflow.RunSpec(query, o)))
  }

  /** `agent_run_worker`: the same envelope around `run_worker(worker_name, query, ...)`. */
  function AgentRunWorkerSpec(orchestrator: Option<map<string, Orchestration.Agent>>, workerName: string,
                              query: string, threadId: Option<string>, context: Option<seq<Doc>>,
                              params: Params, newId: Uuid,
                              execute: (Orchestration.Agent, string, Params) -> Result<WorkerReply>): Envelope
  {
    var t := ThreadIdOf(threadId, newId);
    if orchestrator.None? then Uninitialized(t)
    else
      var p := WithRunKeys(params, t, context);
      var clash := FirstClash(p, RunWorkerParameters);
      if clash.Some? then Raised(t, BindError("AgentOrchestrator.run_worker", clash.value))
      else Completed(t, FromWorker(Orchestration.RunWorkerSpec(orchestrator.value, workerName, query, p, execute)))
  }

  /** The rules every envelope of `agent_run` keeps. */
  lemma AgentRunFacts(orchestrator: Option<map<string, Orchestration.Agent>>, query: string,
                      threadId: Option<string>, context: Option<seq<Doc>>, params: Params,
                      newId: Uuid, o: SupervisorWorkflow.Oracles)
    ensures var env := AgentRunSpec(orchestrator, query, threadId, context, params, newId, o);
            && (threadId.Some? && threadId.value != "" ==> env.threadId == threadId.value)
            && (threadId.None? || threadId.value == "" ==> env.threadId == newId)
            && (orchestrator.None? ==> !env.success && env.output == "" && env.status == "error"
                                       && env.error == Some("Agent orchestrator not initialized"))
            && (env.success <==> orchestrator.Some? && "self" !in params && "input_text" !in params)
            && (env.success ==> env.output == SupervisorWorkflow.RunSpec(query, o).response
                                && env.error == SupervisorWorkflow.RunSpec(query, o).error
                                && (env.status == "success" <==> !Truthy(SupervisorWorkflow.RunSpec(query, o).error)))
            && (!env.success ==> env.output == "" && env.status == "error" && env.error.Some?)
  {
    var t := ThreadIdOf(threadId, newId);
    if orchestrator.Some? {
      var p := WithRunKeys(params, t, context);
      assert "self" in p <==> "self" in params;
      assert "input_text" in p <==> "input_text" in params;
      var c := FirstClash(p, RunParameters);
      assert c.None? <==> RunParameters[0] !in p && RunParameters[1] !in p;
    }
  }

  /**
   * The rules every envelope of `agent_run_worker` keeps; in particular the worker's name
   * reaches `run_worker`, so an unknown worker gives a successful envelope whose status is
   * "error" and whose error names the worker.
   */
  lemma AgentRunWorkerFacts(orchestrator: Option<map<string, Orchestration.Agent>>, workerName: string,
                            query: string, threadId: Option<string>, context: Option<seq<Doc>>,
                            params: Params, newId: Uuid,
                            execute: (Orchestration.Agent, string, Params) -> Result<WorkerReply>)
    ensures var env := AgentRunWorkerSpec(orchestrator, workerName, query, threadId, context, params, newId, execute);
            && env.threadId == ThreadIdOf(threadId, newId)
            && (orchestrator.None? ==> !env.success && env.output == "" && env.status == "error"
                                       && env.error == Some("Agent orchestrator not initialized"))
            && (env.success <==> orchestrator.Some? && "self" !in params && "worker_name" !in params
                                 && "input_text" !in params)
            && (env.success ==> (env.status == "success" <==> !Truthy(env.error)))
            && (!env.success ==> env.output == "" && env.status == "error" && env.error.Some?)
            && (env.success && workerName !in orchestrator.value ==>
                  env.status == "error" && env.error == Some("Worker agent '" + workerName + "' not found"))
  {
    var t := ThreadIdOf(threadId, newId);
    if orchestrator.Some? {
      var p := WithRunKeys(params, t, context);
      assert "self" in p <==> "self" in params;
      assert "worker_name" in p <==> "worker_name" in params;
      assert "input_text" in p <==> "input_text" in params;
      var c := FirstClash(p, RunWorkerParameters);
      assert c.None? <==> RunWorkerParameters[0] !in p && RunWorkerParameters[1] !in p && RunWorkerParameters[2] !in p;
      Orchestration.RunWorkerFacts(orchestrator.value, workerName, query, p, execute);
    }
  }

  /** The registry of the global orchestrator, when there is one. */
  function Registered(slot: Orchestration.Slot): Option<map<string, Orchestration.Agent>>
    reads slot, slot.orchestrator
  {
    if slot.orchestrator == null then None else Some(slot.orchestrator.workers)
  }

  /** `agent_run`. */
  method AgentRun(slot: Orchestration.Slot, query: string, threadId: Option<string>, context: Option<seq<Doc>>,
                  params: ParamDict?, newId: Uuid, o: SupervisorWorkflow.Oracles) returns (env: Envelope)
    modifies params
    ensures env == AgentRunSpec(Registered(slot), query, threadId, context, old(EntriesOf(params)), newId, o)
    ensures slot.orchestrator == null && params != null ==> unchanged(params)
  {
    var orchestrator := slot.GetOrchestrator();
    if orchestrator == null {
      var t := if threadId.Some? && threadId.value != "" then threadId.value else newId;
      return Uninitialized(t);
    }
    var t := if threadId.Some? && threadId.value != "" then threadId.value else newId;
    var workflowParams := PrepareParams(params, t, context);
    var clash := FirstClash(workflowParams.entries, RunParameters);
    if clash.Some? {
      return Raised(t, BindError("AgentOrchestrator.run", clash.value));
    }
    var result := orchestrator.Run(query, o);
    env := Completed(t, FromRun(result));
  }

  /** `agent_run_worker`. */
  method AgentRunWorker(slot: Orchestration.Slot, workerName: string, query: string, threadId: Option<string>,
                        context: Option<seq<Doc>>, params: ParamDict?, newId: Uuid,
                        execute: (Orchestration.Agent, string, Params) -> Result<WorkerReply>)
    returns (env: Envelope)
    modifies params
    ensures env == AgentRunWorkerSpec(Registered(slot), workerName, query, threadId, context,
                                      old(EntriesOf(params)), newId, execute)
    ensures slot.orchestrator == null && params != null ==> unchanged(params)
  {
    var orchestrator := slot.GetOrchestrator();
    if orchestrator == null {
      var t := if threadId.Some? && threadId.value != "" then threadId.value else newId;
      return Uninitialized(t);
    }
    var t := if threadId.Some? && threadId.value != "" then threadId.value else newId;
    var workerParams := PrepareParams(params, t, context);
    var clash := FirstClash(workerParams.entries, RunWorkerParameters);
    if clash.Some? {
      return Raised(t, BindError("AgentOrchestrator.run_worker", clash.value));
    }
    var result := orchestrator.RunWorker(workerName, query, workerParams.entries, execute);
    env := Completed(t, FromWorker(result));
  }
}
