/**
 * The planning/retrieval/analysis workflow of emvr/agents/supervisors/supervisor.py: the
 * fixed graph of seven steps with the analysis router, each step's copy-and-update of the
 * workflow state (with its error fallback), and `run`, which drives the graph from
 * PLANNING to END and wraps the outcome.
 *
 * The LLM's reply at each step and the hybrid-search tool are oracles; LangGraph's limit
 * on the number of steps, and the text of the error it raises, are parameters.
 */
module SupervisorWorkflow {
  import opened Outcomes
  import opened Text
  import opened AgentBase

  datatype Phase = Planning | Retrieving | Ingesting | Analyzing | Executing | Reflecting | Responding

  /** A node of the compiled graph: a step, or END. */
  datatype Node = At(phase: Phase) | End

  /** The three answers of the analysis router. */
  datatype Route = NeedsIngestion | Execute | Respond

  datatype Plan = Plan(steps: seq<string>, currentStep: nat)

  /** The workflow state: the keys the steps read and write. */
  datatype WorkflowState = WorkflowState(
    input: string,
    currentState: Phase,
    plan: Option<Plan>,
    context: Option<seq<Doc>>,
    analysis: Option<string>,
    ingestionPlan: Option<string>,
    executionResult: Option<string>,
    reflection: Option<string>,
    finalResponse: Option<string>,
    error: Option<string>)

  /** The state `run` starts from. */
  function Initial(input: string): WorkflowState
  {
    WorkflowState(input, Planning, None, None, None, None, None, None, None, None)
  }

  // ---------------------------------------------------------------------------
  // The graph
  // ---------------------------------------------------------------------------

  const Entry: Node := At(Planning)

  /** `_analyze_condition` on the analysis text. */
  function AnalyzeCondition(analysis: string): Route
  {
    if Contains(Lower(analysis), "needs_ingestion") then NeedsIngestion
    else if Contains(Lower(analysis), "execute") then Execute
    else Respond
  }

  /** The conditional edges out of ANALYZING. */
  function RouteTarget(r: Route): Phase
  {
    match r
    case NeedsIngestion => Ingesting
    case Execute => Executing
    case Respond => Responding
  }

  /** The node after `p`, given the state `p` produced. */
  function Next(p: Phase, s: WorkflowState): Node
  {
    match p
    case Planning => At(Retrieving)
    case Retrieving => At(Analyzing)
    case Analyzing => At(RouteTarget(AnalyzeCondition(s.analysis.GetOr(""))))
    case Ingesting => At(Analyzing)
    case Executing => At(Reflecting)
    case Reflecting => At(Responding)
    case Responding => End
  }

  /**
   * The router asks for ingestion exactly when the lower-cased analysis mentions
   * "needs_ingestion", for execution when it mentions "execute" but not that, and for a
   * response otherwise.
   */
  lemma AnalyzeConditionFacts(analysis: string)
    ensures AnalyzeCondition(analysis) == NeedsIngestion <==> Contains(Lower(analysis), "needs_ingestion")
    ensures AnalyzeCondition(analysis) == Execute
            <==> !Contains(Lower(analysis), "needs_ingestion") && Contains(Lower(analysis), "execute")
    ensures AnalyzeCondition(analysis) == Respond
            <==> !Contains(Lower(analysis), "needs_ingestion") && !Contains(Lower(analysis), "execute")
  {
  }

  /**
   * The graph is fixed: every step but ANALYZING has one successor whatever the state (its
   * own `currentState` field included), ANALYZING goes where the router sends it, and END
   * follows RESPONDING only.
   */
  lemma GraphFacts(p: Phase, s: WorkflowState, t: WorkflowState)
    ensures p != Analyzing ==> Next(p, s) == Next(p, t)
    ensures Next(p, s) == End <==> p == Responding
    ensures p == Analyzing ==> Next(p, s) == At(RouteTarget(AnalyzeCondition(s.analysis.GetOr(""))))
    ensures Next(p, s) != At(Planning)
    ensures Next(p, s) == At(Ingesting) ==> p == Analyzing
  {
  }

  // ---------------------------------------------------------------------------
  // The steps
  // ---------------------------------------------------------------------------

  /** The query the steps put in their prompts. */
  function Query(s: WorkflowState): string
  {
    s.input
  }

  const ApologyPrefix: string := "I apologize, but I encountered an error while preparing your response. Error: "

  /** The planning step, given the LLM's reply to the planning prompt. */
  function PlanningStep(s: WorkflowState, reply: Result<string>): WorkflowState
  {
    match reply
    case Ok(content) => s.(plan := Some(Plan(SplitOn(content, '\n'), 0)), currentState := Retrieving)
    case Err(e) => s.(error := Some(e), currentState := Responding)
  }

  /** The retrieving step, given the hybrid-search tool's "results" (absent: None). */
  function RetrievingStep(s: WorkflowState, found: Result<Option<seq<Doc>>>): WorkflowState
  {
    match found
    case Ok(results) => s.(context := Some(results.GetOr([])), currentState := Analyzing)
    case Err(e) => s.(error := Some(e), context := Some([]), currentState := Analyzing)
  }

  /** The analyzing step: a failure counts as the analysis "execute". */
  function AnalyzingStep(s: WorkflowState, reply: Result<string>): WorkflowState
  {
    match reply
    case Ok(content) => s.(analysis := Some(content))
    case Err(e) => s.(error := Some(e), analysis := Some("execute"))
  }

  function IngestingStep(s: WorkflowState, reply: Result<string>): WorkflowState
  {
    match reply
    case Ok(content) => s.(ingestionPlan := Some(content), currentState := Analyzing)
    case Err(e) => s.(error := Some(e), currentState := Analyzing)
  }

  function ExecutingStep(s: WorkflowState, reply: Result<string>): WorkflowState
  {
    match reply
    case Ok(content) => s.(executionResult := Some(content), currentState := Reflecting)
    case Err(e) => s.(error := Some(e), executionResult := Some("Error during execution: " + e), currentState := Reflecting)
  }

  function ReflectingStep(s: WorkflowState, reply: Result<string>): WorkflowState
  {
    match reply
    case Ok(content) => s.(reflection := Some(content), currentState := Responding)
    case Err(e) => s.(error := Some(e), reflection := Some("Error during reflection: " + e), currentState := Responding)
  }

  function RespondingStep(s: WorkflowState, reply: Result<string>): WorkflowState
  {
    match reply
    case Ok(content) => s.(finalResponse := Some(content))
    case Err(e) => s.(error := Some(e), finalResponse := Some(ApologyPrefix + e))
  }

  /**
   * A successful plan is the reply split at its line breaks, which re-joined give back
   * the reply, and starts at step 0; a failed one keeps the old plan and records the error.
   */
  lemma PlanningFacts(s: WorkflowState, reply: Result<string>)
    ensures reply.Ok? ==> PlanningStep(s, reply).plan.Some?
                          && Join(PlanningStep(s, reply).plan.value.steps, "\n") == reply.value
                          && PlanningStep(s, reply).plan.value.currentStep == 0
                          && PlanningStep(s, reply).currentState == Retrieving
    ensures reply.Err? ==> PlanningStep(s, reply).plan == s.plan && PlanningStep(s, reply).error == Some(reply.error)
  {
    if reply.Ok? {
      JoinSplitOn(reply.value, '\n');
    }
  }

  /**
   * A failed analysis records its error and routes to EXECUTING; a failed retrieval
   * records its error, leaves an empty context and goes on to ANALYZING.
   */
  lemma FallbackFacts(s: WorkflowState, e: string)
    ensures AnalyzingStep(s, Err(e)).error == Some(e)
    ensures Next(Analyzing, AnalyzingStep(s, Err(e))) == At(Executing)
    ensures RetrievingStep(s, Err(e)).context == Some([]) && RetrievingStep(s, Err(e)).error == Some(e)
    ensures Next(Retrieving, RetrievingStep(s, Err(e))) == At(Analyzing)
  {
    assert Lower("execute") == "execute";
    assert StartsWith("execute", "execute");
    assert !Contains("execute", "needs_ingestion");
  }

  /**
   * Each step writes only its own keys: the input is never changed, a step leaves every
   * other key as it was, and the error is set exactly when the step failed.
   */
  lemma StepFrames(s: WorkflowState, reply: Result<string>, found: Result<Option<seq<Doc>>>)
    ensures PlanningStep(s, reply).(plan := s.plan, currentState := s.currentState, error := s.error) == s
    ensures RetrievingStep(s, found).(context := s.context, currentState := s.currentState, error := s.error) == s
    ensures AnalyzingStep(s, reply).(analysis := s.analysis, error := s.error) == s
    ensures IngestingStep(s, reply).(ingestionPlan := s.ingestionPlan, currentState := s.currentState, error := s.error) == s
    ensures ExecutingStep(s, reply).(executionResult := s.executionResult, currentState := s.currentState, error := s.error) == s
    ensures ReflectingStep(s, reply).(reflection := s.reflection, currentState := s.currentState, error := s.error) == s
    ensures RespondingStep(s, reply).(finalResponse := s.finalResponse, error := s.error) == s
    ensures reply.Err? ==> PlanningStep(s, reply).error == AnalyzingStep(s, reply).error == IngestingStep(s, reply).error
                           == ExecutingStep(s, reply).error == ReflectingStep(s, reply).error
                           == RespondingStep(s, reply).error == Some(reply.error)
    ensures reply.Ok? ==> PlanningStep(s, reply).error == AnalyzingStep(s, reply).error == IngestingStep(s, reply).error
                          == ExecutingStep(s, reply).error == ReflectingStep(s, reply).error
                          == RespondingStep(s, reply).error == s.error
    ensures RespondingStep(s, reply).finalResponse.Some?
  {
  }

  // ---------------------------------------------------------------------------
  // run
  // ---------------------------------------------------------------------------

  /**
   * The outside world of a run: the LLM's reply to the step at a given position in the
   * run, the hybrid-search tool, and LangGraph's step limit with the text it raises.
   */
  datatype Oracles = Oracles(llm: (Phase, nat) -> Result<string>,
                             search: string -> Result<Option<seq<Doc>>>,
                             stepLimit: nat,
                             limitError: string)

  /** Running step `p` as the `n`-th step of the run. */
  function StepAt(p: Phase, s: WorkflowState, n: nat, o: Oracles): WorkflowState
  {
    match p
    case Planning => PlanningStep(s, o.llm(p, n))
    case Retrieving => RetrievingStep(s, o.search(Query(s)))
    case Analyzing => AnalyzingStep(s, o.llm(p, n))
    case Ingesting => IngestingStep(s, o.llm(p, n))
    case Executing => ExecutingStep(s, o.llm(p, n))
    case Reflecting => ReflectingStep(s, o.llm(p, n))
    case Responding => RespondingStep(s, o.llm(p, n))
  }

  /** The graph run from `node` with `fuel` steps left, `n` steps already taken. */
  function Drive(s: WorkflowState, node: Node, n: nat, fuel: nat, o: Oracles): Result<WorkflowState>
    decreases fuel
  {
    match node
    case End => Ok(s)
    case At(p) =>
      if fuel == 0 then Err(o.limitError)
      else
        var t := StepAt(p, s, n, o);
        Drive(t, Next(p, t), n + 1, fuel - 1, o)
  }

  /** Whatever ends at END has been through RESPONDING, which always sets the final response. */
  lemma {:induction false} DriveResponds(s: WorkflowState, node: Node, n: nat, fuel: nat, o: Oracles)
    requires node.At? && Drive(s, node, n, fuel, o).Ok?
    ensures Drive(s, node, n, fuel, o).value.finalResponse.Some?
    decreases fuel
  {
    var p := node.phase;
    var t := StepAt(p, s, n, o);
    assert Drive(s, node, n, fuel, o) == Drive(t, Next(p, t), n + 1, fuel - 1, o);
    if p == Responding {
      assert t == RespondingStep(s, o.llm(p, n));
    } else {
      assert Next(p, t) != End;
      DriveResponds(t, Next(p, t), n + 1, fuel - 1, o);
    }
  }

  /** The only way a run fails is the step limit. */
  lemma {:induction false} DriveFailsOnLimit(s: WorkflowState, node: Node, n: nat, fuel: nat, o: Oracles)
    requires Drive(s, node, n, fuel, o).Err?
    ensures Drive(s, node, n, fuel, o).error == o.limitError
    decreases fuel
  {
    if node.At? && fuel > 0 {
      var t := StepAt(node.phase, s, n, o);
      DriveFailsOnLimit(t, Next(node.phase, t), n + 1, fuel - 1, o);
    }
  }

  datatype Trace = Trace(plan: Option<Plan>, context: Option<seq<Doc>>, analysis: Option<string>,
                         executionResult: Option<string>, reflection: Option<string>)

  /** `run`'s dict: the response, the trace on success, the error text on failure, the status. */
  datatype RunOutput = RunOutput(response: string, workflowTrace: Option<Trace>, error: Option<string>, status: string)

  const NoResponse: string := "I'm sorry, I couldn't generate a response."

  function Succeeded(f: WorkflowState): RunOutput
  {
    RunOutput(f.finalResponse.GetOr(NoResponse),
              Some(Trace(f.plan, f.context, f.analysis, f.executionResult, f.reflection)), None, "success")
  }

  function Failed(e: string): RunOutput
  {
    RunOutput("I encountered an error: " + e, None, Some(e), "error")
  }

  function RunSpec(input: string, o: Oracles): RunOutput
  {
    match Drive(Initial(input), Entry, 0, o.stepLimit, o)
    case Ok(f) => Succeeded(f)
    case Err(e) => Failed(e)
  }

  /**
   * A run that reaches END reports status "success" with the response the RESPONDING step
   * produced (never the fallback text in its place); one stopped by the step limit reports
   * status "error" with the limit's text.
   */
  lemma RunFacts(input: string, o: Oracles)
    ensures RunSpec(input, o).status == "success" ==>
              var f := Drive(Initial(input), Entry, 0, o.stepLimit, o).value;
              f.finalResponse.Some? && RunSpec(input, o).response == f.finalResponse.value
              && RunSpec(input, o).error.None?
    ensures RunSpec(input, o).status == "error" ==>
              RunSpec(input, o).error == Some(o.limitError)
              && RunSpec(input, o).response == "I encountered an error: " + o.limitError
    ensures RunSpec(input, o).status in {"success", "error"}
  {
    if Drive(Initial(input), Entry, 0, o.stepLimit, o).Ok? {
      DriveResponds(Initial(input), Entry, 0, o.stepLimit, o);
    } else {
      DriveFailsOnLimit(Initial(input), Entry, 0, o.stepLimit, o);
    }
  }

  /** The three steps after ANALYZING on the way to END, when it routes to EXECUTING. */
  lemma ExecutePath(s: WorkflowState, n: nat, fuel: nat, o: Oracles)
    requires fuel >= 3
    ensures Drive(s, At(Executing), n, fuel, o).Ok?
  {
    var t1 := StepAt(Executing, s, n, o);
    var t2 := StepAt(Reflecting, t1, n + 1, o);
    var t3 := StepAt(Responding, t2, n + 2, o);
    assert Drive(s, At(Executing), n, fuel, o) == Drive(t1, At(Reflecting), n + 1, fuel - 1, o);
    assert Drive(t1, At(Reflecting), n + 1, fuel - 1, o) == Drive(t2, At(Responding), n + 2, fuel - 2, o);
    assert Drive(t2, At(Responding), n + 2, fuel - 2, o) == Drive(t3, End, n + 3, fuel - 3, o);
  }

  /**
   * A run whose analysis never asks for ingestion reaches END within six steps: with a
   * step limit of at least 6 it succeeds.
   */
  lemma RunWithoutIngestionSucceeds(input: string, o: Oracles)
    requires o.stepLimit >= 6
    requires forall n: nat :: o.llm(Analyzing, n).Ok? ==> !Contains(Lower(o.llm(Analyzing, n).value), "needs_ingestion")
    ensures RunSpec(input, o).status == "success"
  {
    var s0 := Initial(input);
    var s1 := StepAt(Planning, s0, 0, o);
    var s2 := StepAt(Retrieving, s1, 1, o);
    var s3 := StepAt(Analyzing, s2, 2, o);
    var route := AnalyzeCondition(s3.analysis.GetOr(""));
    if o.llm(Analyzing, 2).Err? {
      FallbackFacts(s2, o.llm(Analyzing, 2).error);
    }
    assert route != NeedsIngestion;
    var fuel := o.stepLimit;
    assert Drive(s0, Entry, 0, fuel, o) == Drive(s1, At(Retrieving), 1, fuel - 1, o);
    assert Drive(s1, At(Retrieving), 1, fuel - 1, o) == Drive(s2, At(Analyzing), 2, fuel - 2, o);
    assert Drive(s2, At(Analyzing), 2, fuel - 2, o) == Drive(s3, At(RouteTarget(route)), 3, fuel - 3, o);
    if route == Execute {
      ExecutePath(s3, 3, fuel - 3, o);
    } else {
      var s4 := StepAt(Responding, s3, 3, o);
      assert Drive(s3, At(Responding), 3, fuel - 3, o) == Drive(s4, End, 4, fuel - 4, o);
    }
  }

  /** One step of the graph run: the node's step, then the edge it takes. */
  method Step(s: WorkflowState, node: Node, n: nat, fuel: nat, o: Oracles) returns (t: WorkflowState, next: Node)
    requires node.At? && fuel > 0
    ensures Drive(t, next, n + 1, fuel - 1, o) == Drive(s, node, n, fuel, o)
  {
    var p := node.phase;
    t := StepAt(p, s, n, o);
    next := Next(p, t);
  }

  /** `run`: step through the graph from PLANNING until END or the step limit. */
  method Run(input: string, o: Oracles) returns (out: RunOutput)
    ensures out == RunSpec(input, o)
  {
    var state := Initial(input);
    var node := Entry;
    var n := 0;
    while node.At? && n < o.stepLimit
      invariant n <= o.stepLimit
      invariant Drive(state, node, n, o.stepLimit - n, o) == Drive(Initial(input), Entry, 0, o.stepLimit, o)
      decreases o.stepLimit - n
    {
      state, node := Step(state, node, n, o.stepLimit - n, o);
      n := n + 1;
    }
    if node.At? {
      out := Failed(o.limitError);
    } else {
      out := Succeeded(state);
    }
  }
}
