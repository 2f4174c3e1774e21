/**
 * The memory agent of emvr/agent/memory_agent.py: its two tools, which render the hybrid
 * retriever's results and the memory manager's graph with the display limits, and the
 * exception mapping of its `run`.
 */
module MemoryAgent {
  import opened Outcomes
  import opened AgentBase
  import opened RetrievalBase
  import opened GraphStore
  import opened Text
  import SupervisorWorkers

  const MaxEntitiesDisplay: nat := 10
  const MaxRelationsDisplay: nat := 10
  const MaxObservationsPreview: nat := 3

  const DisplayLimits: SupervisorWorkers.Limits :=
    SupervisorWorkers.Limits(MaxEntitiesDisplay, MaxRelationsDisplay, MaxObservationsPreview)

  /** `memory_search`: the numbered listing of the retriever's results, without relevance. */
  method MemorySearchTool(results: seq<RetrievalResult>) returns (output: string)
    ensures output == SupervisorWorkers.SearchSpec(results, false, SupervisorWorkers.NoResults)
  {
    output := SupervisorWorkers.SearchTool(results, false, SupervisorWorkers.NoResults);
  }

  /** `memory_read_graph`: the graph rendering, relation types read under "relation". */
  method MemoryReadTool(g: GraphRows) returns (output: string)
    ensures output == SupervisorWorkers.ReadGraphSpec(g, "relation", DisplayLimits)
  {
    output := SupervisorWorkers.FormatGraph(g, "relation", DisplayLimits);
  }

  /**
   * The memory read tool names every shown relation with its type, and shows every one of
   * the first 10 entities with its first 3 observations and the count of the others.
   */
  lemma MemoryReadShowsGraph(g: GraphRows)
    ensures forall i :: 0 <= i < |g.relations| && i < MaxRelationsDisplay ==>
              Contains(SupervisorWorkers.ReadGraphSpec(g, "relation", DisplayLimits),
                       g.relations[i].from + " --" + g.relations[i].relation + "--> " + g.relations[i].to)
    ensures forall i :: 0 <= i < |g.entities| && i < MaxEntitiesDisplay ==>
              Contains(SupervisorWorkers.ReadGraphSpec(g, "relation", DisplayLimits),
                       g.entities[i].name + " (" + g.entities[i].entityType + "): "
                       + SupervisorWorkers.ObservationText(g.entities[i].observations, MaxObservationsPreview))
    ensures SupervisorWorkers.ReadGraphSpec(g, "relation", DisplayLimits) == SupervisorWorkers.EmptyGraph
            <==> g.entities == [] && g.relations == []
  {
    SupervisorWorkers.ReadGraphFacts(g, "relation", DisplayLimits);
  }

  /**
   * `run`: the executor's output on success; a KeyError (a reply without "output" among
   * them) or ValueError becomes a failed result "Agent execution error: …", a RuntimeError
   * one "Runtime error: …"; any other exception propagates (`Err`).
   */
  function Run(inv: Invocation): Result<AgentResult>
  {
    match inv
    case Answered(output, steps) =>
      if output.Some? then Ok(AgentResult(true, output.value, steps, None))
      else Ok(AgentResult(false, "", None, Some("Agent execution error: " + KeyErrorText("output"))))
    case Raised(kind, message) =>
      if kind == KeyErrorKind || kind == ValueErrorKind then
        Ok(AgentResult(false, "", None, Some("Agent execution error: " + message)))
      else if kind == RuntimeErrorKind then
        Ok(AgentResult(false, "", None, Some("Runtime error: " + message)))
      else Err(message)
  }

  /**
   * `run` returns a result unless the exception is neither a KeyError, a ValueError nor a
   * RuntimeError, in which case the same exception escapes; a returned result succeeds
   * exactly when the executor answered with an output, and a failed one carries an empty
   * output and an error that names its family and the exception's text.
   */
  lemma RunFacts(inv: Invocation)
    ensures Run(inv).Err? <==> inv.Raised? && inv.kind in {TimeoutErrorKind, OtherErrorKind}
    ensures Run(inv).Err? ==> Run(inv).error == inv.message
    ensures Run(inv).Ok? ==>
              (Run(inv).value.success <==> inv.Answered? && inv.output.Some?)
              && (Run(inv).value.success ==> Run(inv).value.output == inv.output.value
                                             && Run(inv).value.intermediateSteps == inv.steps)
              && (!Run(inv).value.success ==> Run(inv).value.output == "" && Run(inv).value.error.Some?)
    ensures inv.Raised? && inv.kind in {KeyErrorKind, ValueErrorKind} ==>
              Run(inv) == Ok(AgentResult(false, "", None, Some("Agent execution error: " + inv.message)))
    ensures inv.Raised? && inv.kind == RuntimeErrorKind ==>
              Run(inv) == Ok(AgentResult(false, "", None, Some("Runtime error: " + inv.message)))
    ensures inv.Answered? && inv.output.None? ==>
              Run(inv) == Ok(AgentResult(false, "", None, Some("Agent execution error: 'output'")))
  {
    assert "Agent execution error: " + KeyErrorText("output") == "Agent execution error: 'output'";
  }
}
