/**
 * The agent orchestrator of emvr/agents/orchestration.py: the worker registry with its
 * four default workers and the custom overrides, `run` (the supervisor's run) and
 * `run_worker`, and the module's single global orchestrator.
 *
 * Agents are handles; what a worker does when run is a parameter.
 */
module Orchestration {
  import opened Outcomes
  import opened AgentBase
  import SupervisorWorkflow

  /** A worker agent: one of the four default kinds, or a custom agent of the caller's. */
  datatype Agent = Research | Ingestion | Analysis | Creative | Custom(id: nat)

  const DefaultNames: set<string> := {"research", "ingestion", "analysis", "creative"}

  /** The default worker registered under a default name. */
  function DefaultAgent(name: string): Agent
  {
    if name == "research" then Research
    else if name == "ingestion" then Ingestion
    else if name == "analysis" then Analysis
    else Creative
  }

  /** `workers[name] = default` unless the name is already registered. */
  function WithDefault(workers: map<string, Agent>, name: string): map<string, Agent>
  {
    if name in workers then workers else workers[name := DefaultAgent(name)]
  }

  /**
   * The registry `_initialize_workers` builds: the custom agents, then each default worker
   * whose name they do not take. It holds the four default names and every custom name; a
   * custom agent is kept under its name, a default one fills every other default name.
   */
  function WorkerRegistry(customAgents: Option<map<string, Agent>>): (workers: map<string, Agent>)
    ensures forall k :: k in workers <==> (customAgents.Some? && k in customAgents.value) || k in DefaultNames
    ensures customAgents.Some? ==> forall k :: k in customAgents.value ==> workers[k] == customAgents.value[k]
    ensures forall k :: k in DefaultNames && (customAgents.None? || k !in customAgents.value) ==>
              workers[k] == DefaultAgent(k)
  {
    var custom := if customAgents.Some? && customAgents.value != map[] then customAgents.value else map[];
    WithDefault(WithDefault(WithDefault(WithDefault(custom, "research"), "ingestion"), "analysis"), "creative")
  }

  /** `_initialize_workers`: fill the registry step by step. */
  method InitializeWorkers(customAgents: Option<map<string, Agent>>) returns (workers: map<string, Agent>)
    ensures workers == WorkerRegistry(customAgents)
  {
    workers := map[];
    if customAgents.Some? && customAgents.value != map[] {
      workers := customAgents.value;
    }
    if "research" !in workers {
      workers := workers["research" := Research];
    }
    if "ingestion" !in workers {
      workers := workers["ingestion" := Ingestion];
    }
    if "analysis" !in workers {
      workers := workers["analysis" := Analysis];
    }
    if "creative" !in workers {
      workers := workers["creative" := Creative];
    }
  }

  /** The text of the error for an unregistered worker. */
  function NotFound(workerName: string): string
  {
    "Worker agent '" + workerName + "' not found"
  }

  /**
   * `run_worker`: the registered worker's reply unchanged, or the error reply when the
   * name is not registered or the worker raises.
   */
  function RunWorkerSpec(workers: map<string, Agent>, workerName: string, inputText: string, kwargs: Params,
                         execute: (Agent, string, Params) -> Result<WorkerReply>): WorkerReply
  {
    if workerName !in workers then ErrorReply(NotFound(workerName))
    else match execute(workers[workerName], inputText, kwargs)
      case Ok(reply) => reply
      case Err(e) => ErrorReply(e)
  }

  /**
   * An unregistered name gives status "error" with "Worker agent '<name>' not found"
   * instead of raising; a registered worker's reply is returned as it is, and its
   * exception becomes an error reply with its text.
   */
  lemma RunWorkerFacts(workers: map<string, Agent>, workerName: string, inputText: string, kwargs: Params,
                       execute: (Agent, string, Params) -> Result<WorkerReply>)
    ensures workerName !in workers ==>
              var r := RunWorkerSpec(workers, workerName, inputText, kwargs, execute);
              r.status == "error" && r.error == Some("Worker agent '" + workerName + "' not found")
              && r.response == "I encountered an error: Worker agent '" + workerName + "' not found"
    ensures workerName in workers && execute(workers[workerName], inputText, kwargs).Ok? ==>
              RunWorkerSpec(workers, workerName, inputText, kwargs, execute)
              == execute(workers[workerName], inputText, kwargs).value
    ensures workerName in workers && execute(workers[workerName], inputText, kwargs).Err? ==>
              RunWorkerSpec(workers, workerName, inputText, kwargs, execute)
              == ErrorReply(execute(workers[workerName], inputText, kwargs).error)
  {
    var text := "Worker agent '" + workerName + "' not found";
    assert "I encountered an error: " + NotFound(workerName) == "I encountered an error: Worker agent '" + workerName + "' not found";
  }

  class Orchestrator {
    var workers: map<string, Agent>

    constructor(customAgents: Option<map<string, Agent>>)
      ensures workers == WorkerRegistry(customAgents)
    {
      workers := WorkerRegistry(customAgents);
    }

    /**
     * `run`: the supervisor workflow's result. The supervisor's `run` catches every
     * exception itself, so the orchestrator's own handler never fires.
     */
    method Run(inputText: string, o: SupervisorWorkflow.Oracles) returns (result: SupervisorWorkflow.RunOutput)
      ensures result == SupervisorWorkflow.RunSpec(inputText, o)
    {
      result := SupervisorWorkflow.Run(inputText, o);
    }

    method RunWorker(workerName: string, inputText: string, kwargs: Params,
                     execute: (Agent, string, Params) -> Result<WorkerReply>) returns (reply: WorkerReply)
      ensures reply == RunWorkerSpec(workers, workerName, inputText, kwargs, execute)
    {
      if workerName !in workers {
        var msg := "Worker agent '" + workerName + "' not found";
        return ErrorReply(msg);
      }
      var outcome := execute(workers[workerName], inputText, kwargs);
      match outcome {
        case Ok(r) => reply := r;
        case Err(e) => reply := ErrorReply(e);
      }
    }
  }

  /** The module's global `_orchestrator`, None until the first initialisation. */
  class Slot {
    var orchestrator: Orchestrator?

    constructor()
      ensures orchestrator == null
    {
      orchestrator := null;
    }

    /** `get_orchestrator`. */
    function GetOrchestrator(): Orchestrator?
      reads this
    {
      orchestrator
    }

    /**
     * `initialize_orchestration`: the first call creates the orchestrator from its custom
     * agents; every later call returns that same orchestrator and ignores its arguments.
     */
    method InitializeOrchestration(customAgents: Option<map<string, Agent>>) returns (o: Orchestrator)
      modifies this
      ensures old(orchestrator) != null ==> o == old(orchestrator) && orchestrator == old(orchestrator)
      ensures old(orchestrator) == null ==> fresh(o) && o.workers == WorkerRegistry(customAgents) && orchestrator == o
      ensures GetOrchestrator() == o
    {
      if orchestrator == null {
        orchestrator := new Orchestrator(customAgents);
      }
      o := orchestrator;
    }
  }
}
