/**
 * The LangGraph supervisor of emvr/agent/supervisor/base.py: the handoff tools, the
 * supervisor node that picks the next agent from the transfer calls in the LLM's reply,
 * the worker node that runs a worker on the last user message, and `run`, which reads
 * the answer out of the last state of the graph stream.
 *
 * The graph state is a `GraphState` object whose nodes update it in place; the LLM's reply
 * and the workers are parameters.
 */
module SupervisorBase {
  import opened Outcomes
  import opened Text
  import opened AgentBase

  const HandoffPrefix: string := "transfer_to_"
  const EndAgent: string := "END"
  const NoUserMessage: string := "No user message found. Returning to supervisor."

  /** A tool call of a message: its "name", which may be absent. */
  datatype ToolCall = ToolCall(name: Option<string>)

  /** A message of the state: its "role", "content" and "tool_calls". */
  datatype Message = Message(role: string, content: string, toolCalls: seq<ToolCall>)

  /** A message without tool calls, as the nodes append them. */
  function Say(role: string, content: string): Message
  {
    Message(role, content, [])
  }

  // ---------------------------------------------------------------------------
  // Handoff tools
  // ---------------------------------------------------------------------------

  /** The name of the handoff tool for a worker. */
  function HandoffName(agentName: string): string
  {
    HandoffPrefix + agentName
  }

  /** What the handoff tool answers. */
  function HandoffReply(agentName: string, taskDescription: string): string
  {
    "Task transferred to " + agentName + ": " + taskDescription
  }

  /** The agent a transfer call routes to: its name with every "transfer_to_" removed. */
  function TargetOf(toolName: string): string
  {
    RemoveAll(toolName, HandoffPrefix)
  }

  /** Whether a tool call is a transfer: its name (default "") starts with "transfer_to_". */
  predicate IsTransfer(call: ToolCall)
  {
    StartsWith(call.name.GetOr(""), HandoffPrefix)
  }

  /**
   * A handoff tool's call is a transfer, and it routes back to its worker whenever the
   * worker's name does not itself hold "transfer_to_".
   */
  lemma HandoffRoundTrip(agentName: string)
    requires !Contains(agentName, HandoffPrefix)
    ensures IsTransfer(ToolCall(Some(HandoffName(agentName))))
    ensures TargetOf(HandoffName(agentName)) == agentName
  {
    var n := HandoffName(agentName);
    assert n[..|HandoffPrefix|] == HandoffPrefix;
    assert n[|HandoffPrefix|..] == agentName;
    RemoveAllAbsent(agentName, HandoffPrefix);
  }

  /** The handoff reply names the worker and repeats the handed-off task after it. */
  lemma HandoffReplyFacts(agentName: string, taskDescription: string)
    ensures StartsWith(HandoffReply(agentName, taskDescription), "Task transferred to " + agentName + ": ")
    ensures HandoffReply(agentName, taskDescription)[|"Task transferred to " + agentName + ": "|..] == taskDescription
  {
    var head := "Task transferred to " + agentName + ": ";
    assert HandoffReply(agentName, taskDescription) == head + taskDescription;
    assert (head + taskDescription)[..|head|] == head;
  }

  // ---------------------------------------------------------------------------
  // Next-agent extraction
  // ---------------------------------------------------------------------------

  /** The name of the first transfer call, if any. */
  function FirstTransfer(calls: seq<ToolCall>): (r: Option<string>)
    ensures r.None? <==> forall t :: 0 <= t < |calls| ==> !IsTransfer(calls[t])
    ensures r.Some? ==> exists t :: 0 <= t < |calls| && IsTransfer(calls[t]) && calls[t].name == Some(r.value)
                                    && forall u :: 0 <= u < t ==> !IsTransfer(calls[u])
  {
    if calls == [] then None
    else if IsTransfer(calls[0]) then Some(calls[0].name.GetOr(""))
    else
      var rest := FirstTransfer(calls[1..]);
      assert rest.Some? ==> exists t :: 1 <= t < |calls| && IsTransfer(calls[t]) && calls[t].name == Some(rest.value)
                                         && forall u :: 0 <= u < t ==> !IsTransfer(calls[u]) by {
        if rest.Some? {
          var t :| 0 <= t < |calls[1..]| && IsTransfer(calls[1..][t]) && calls[1..][t].name == Some(rest.value)
                   && forall u :: 0 <= u < t ==> !IsTransfer(calls[1..][u]);
          assert forall u :: 0 <= u < t + 1 ==> !IsTransfer(calls[u]) by {
            forall u | 0 <= u < t + 1 ensures !IsTransfer(calls[u]) {
              if u > 0 { assert calls[u] == calls[1..][u - 1]; }
            }
          }
        }
      }
      rest
  }

  predicate HasTransfer(m: Message)
  {
    FirstTransfer(m.toolCalls).Some?
  }

  /**
   * The agent the supervisor routes to after a reply: the first transfer call of the last
   * message that has one, "END" when no message has one.
   */
  function NextAgentOf(messages: seq<Message>): string
  {
    if messages == [] then EndAgent
    else match FirstTransfer(messages[|messages| - 1].toolCalls)
      case Some(name) => TargetOf(name)
      case None => NextAgentOf(messages[..|messages| - 1])
  }

  /** Without any transfer call in the reply the supervisor routes to "END". */
  lemma {:induction false} NoTransferEnds(messages: seq<Message>)
    requires forall k :: 0 <= k < |messages| ==> !HasTransfer(messages[k])
    ensures NextAgentOf(messages) == EndAgent
  {
    if messages != [] {
      NoTransferEnds(messages[..|messages| - 1]);
    }
  }

  /**
   * The message that decides is the last one with a transfer call: a later message
   * overrides an earlier one, and within it the first transfer call wins.
   */
  lemma {:induction false} LastTransferWins(messages: seq<Message>, k: nat)
    requires k < |messages| && HasTransfer(messages[k])
    requires forall j :: k < j < |messages| ==> !HasTransfer(messages[j])
    ensures NextAgentOf(messages) == TargetOf(FirstTransfer(messages[k].toolCalls).value)
  {
    if k < |messages| - 1 {
      LastTransferWins(messages[..|messages| - 1], k);
    }
  }

  // ---------------------------------------------------------------------------
  // Worker node
  // ---------------------------------------------------------------------------

  /** The index of the last message with `role`, if any. */
  function LastWithRole(messages: seq<Message>, role: string): (r: Option<nat>)
    ensures r.None? <==> forall i :: 0 <= i < |messages| ==> messages[i].role != role
    ensures r.Some? ==> r.value < |messages| && messages[r.value].role == role
                        && forall j :: r.value < j < |messages| ==> messages[j].role != role
  {
    if messages == [] then None
    else if messages[|messages| - 1].role == role then Some(|messages| - 1)
    else LastWithRole(messages[..|messages| - 1], role)
  }

  /** What a worker node does to the state, or the exception that escapes it. */
  datatype WorkerEffect =
    | Append(note: Message, setError: Option<string>)
    | Escape(message: string)

  /**
   * The worker node's effect: a system note when no user message exists; otherwise the
   * worker runs on the last user message, and its output becomes an assistant message,
   * a RuntimeError or TimeoutError and a ValueError become an error note, and any other
   * exception escapes.
   */
  function WorkerEffectOf(messages: seq<Message>, agentName: string, run: string -> RunOutcome): WorkerEffect
  {
    match LastWithRole(messages, "user")
    case None => Append(Say("system", NoUserMessage), None)
    case Some(k) =>
      match run(messages[k].content)
      case Returned(result) => Append(Say("assistant", result.output), None)
      case Threw(kind, message) =>
        if kind == RuntimeErrorKind || kind == TimeoutErrorKind then
          var text := "Error in " + agentName + ": " + message;
          Append(Say("system", text), Some(text))
        else if kind == ValueErrorKind then
          var text := "Value error in " + agentName + ": " + message;
          Append(Say("system", text), Some(text))
        else Escape(message)
  }

  /**
   * The worker is consulted only when there is a user message, and then on the last one:
   * the effect is what the worker's own answer on that message decides. Without a user
   * message the node only adds the system note. When the worker returns, the node adds
   * one assistant message holding the worker's output and sets no error.
   */
  lemma WorkerEffectFacts(messages: seq<Message>, agentName: string, run: string -> RunOutcome)
    ensures (forall i :: 0 <= i < |messages| ==> messages[i].role != "user") ==>
              WorkerEffectOf(messages, agentName, run) == Append(Message("system", NoUserMessage, []), None)
    ensures forall k :: 0 <= k < |messages| && messages[k].role == "user"
                        && (forall j :: k < j < |messages| ==> messages[j].role != "user") ==>
              WorkerEffectOf(messages, agentName, run) == WorkerEffectOf([messages[k]], agentName, run)
    ensures forall k :: 0 <= k < |messages| && messages[k].role == "user"
                        && (forall j :: k < j < |messages| ==> messages[j].role != "user")
                        && run(messages[k].content).Returned? ==>
              WorkerEffectOf(messages, agentName, run)
              == Append(Message("assistant", run(messages[k].content).result.output, []), None)
  {
    forall k | 0 <= k < |messages| && messages[k].role == "user"
               && (forall j :: k < j < |messages| ==> messages[j].role != "user")
      ensures WorkerEffectOf(messages, agentName, run) == WorkerEffectOf([messages[k]], agentName, run)
    {
      var r := LastWithRole(messages, "user");
      assert r == Some(k);
      assert LastWithRole([messages[k]], "user") == Some(0);
    }
  }

  /** The error notes name the worker and carry the exception's text. */
  lemma WorkerErrorText(messages: seq<Message>, agentName: string, run: string -> RunOutcome, k: nat)
    requires LastWithRole(messages, "user") == Some(k)
    requires run(messages[k].content).Threw?
    ensures var o := run(messages[k].content);
      match WorkerEffectOf(messages, agentName, run)
      case Append(note, setError) =>
        o.kind in {RuntimeErrorKind, TimeoutErrorKind, ValueErrorKind}
        && note.role == "system" && setError == Some(note.content)
        && StartsWith(note.content, if o.kind == ValueErrorKind then "Value error in " + agentName + ": "
                                    else "Error in " + agentName + ": ")
      case Escape(message) =>
        o.kind !in {RuntimeErrorKind, TimeoutErrorKind, ValueErrorKind} && message == o.message
  {
    var o := run(messages[k].content);
    var head := if o.kind == ValueErrorKind then "Value error in " + agentName + ": " else "Error in " + agentName + ": ";
    assert (head + o.message)[..|head|] == head;
  }

  // ---------------------------------------------------------------------------
  // The graph state and its nodes
  // ---------------------------------------------------------------------------

  /** A snapshot of the state, as the graph stream yields it. */
  datatype Snapshot = Snapshot(messages: seq<Message>, nextAgent: Option<string>, error: Option<string>)

  class GraphState {
    var messages: seq<Message>
    var nextAgent: Option<string>
    var error: Option<string>

    /** The initial state of `run`: the query as the only (user) message. */
    constructor(query: string)
      ensures messages == [Say("user", query)] && nextAgent == None && error == None
    {
      messages := [Say("user", query)];
      nextAgent := None;
      error := None;
    }

    function Current(): Snapshot
      reads this
    {
      Snapshot(messages, nextAgent, error)
    }

    /**
     * `supervisor_node` given the supervisor agent's reply: the reply's messages are added
     * and the next agent is read from their transfer calls, message by message.
     */
    method SupervisorNode(reply: seq<Message>)
      modifies this
      ensures messages == old(messages) + reply
      ensures nextAgent == Some(NextAgentOf(reply))
      ensures error == old(error)
    {
      var next := EndAgent;
      for i := 0 to |reply|
        invariant next == NextAgentOf(reply[..i])
      {
        assert reply[..i + 1][..i] == reply[..i];
        var calls := reply[i].toolCalls;
        if calls != [] {
          var j := 0;
          while j < |calls|
            invariant j <= |calls|
            invariant forall t :: 0 <= t < j ==> !IsTransfer(calls[t])
            invariant next == NextAgentOf(reply[..i])
          {
            if StartsWith(calls[j].name.GetOr(""), HandoffPrefix) {
              next := RemoveAll(calls[j].name.GetOr(""), HandoffPrefix);
              break;
            }
            j := j + 1;
          }
        }
      }
      assert reply[..|reply|] == reply;
      messages := messages + reply;
      nextAgent := Some(next);
    }

    /**
     * `worker_node` for the worker `agentName`: the state takes the worker effect, or
     * stays as it was when an exception escapes (returned as `escaped`).
     */
    method WorkerNode(agentName: string, run: string -> RunOutcome) returns (escaped: Option<string>)
      modifies this
      ensures match WorkerEffectOf(old(messages), agentName, run)
        case Append(note, setError) =>
          escaped.None? && messages == old(messages) + [note]
          && error == (if setError.Some? then setError else old(error)) && nextAgent == old(nextAgent)
        case Escape(message) =>
          escaped == Some(message) && messages == old(messages) && error == old(error) && nextAgent == old(nextAgent)
    {
      var last := LastWithRole(messages, "user");
      if last.None? {
        messages := messages + [Say("system", NoUserMessage)];
        return None;
      }
      var query := messages[last.value].content;
      var result := run(query);
      match result {
        case Returned(r) =>
          messages := messages + [Say("assistant", r.output)];
          escaped := None;
        case Threw(kind, message) =>
          if kind == RuntimeErrorKind || kind == TimeoutErrorKind {
            var errorMessage := "Error in " + agentName + ": " + message;
            error := Some(errorMessage);
            messages := messages + [Say("system", errorMessage)];
            escaped := None;
          } else if kind == ValueErrorKind {
            var errorMessage := "Value error in " + agentName + ": " + message;
            error := Some(errorMessage);
            messages := messages + [Say("system", errorMessage)];
            escaped := None;
          } else {
            escaped := Some(message);
          }
      }
    }
  }

  // ---------------------------------------------------------------------------
  // run
  // ---------------------------------------------------------------------------

  /** The graph stream: the snapshots it yields, or the exception it raises. */
  datatype Stream = Streamed(steps: seq<Snapshot>) | Broke(kind: ErrorKind, message: string)

  /** `SupervisorAgent.run`'s result; the intermediate steps are the stream's snapshots. */
  datatype RunReport = RunReport(success: bool, output: string, intermediateSteps: Option<seq<Snapshot>>,
                                 error: Option<string>)

  /** What `final_state.get(...)` raises when the stream yielded nothing. */
  const NoFinalState: string := "'NoneType' object has no attribute 'get'"

  /** Python truthiness of an optional string. */
  predicate Truthy(s: Option<string>)
  {
    s.Some? && s.value != ""
  }

  /** The content of the last assistant message, "" when there is none. */
  function LastAssistantContent(messages: seq<Message>): string
  {
    match LastWithRole(messages, "assistant")
    case Some(k) => messages[k].content
    case None => ""
  }

  function RunSpec(stream: Stream): Result<RunReport>
  {
    match stream
    case Broke(kind, message) =>
      if kind == ValueErrorKind || kind == KeyErrorKind then Ok(RunReport(false, "", None, Some(message)))
      else Err(message)
    case Streamed(steps) =>
      if steps == [] then Err(NoFinalState)
      else
        var final := steps[|steps| - 1];
        Ok(RunReport(!Truthy(final.error), LastAssistantContent(final.messages), Some(steps), final.error))
  }

  /**
   * A run that ends normally reports the last snapshot: its output is the content of that
   * snapshot's last assistant message ("" without one), all snapshots are the steps, and
   * it succeeds exactly when that snapshot holds no error text. A ValueError or KeyError
   * from the stream becomes a failed report with its text; other exceptions escape.
   */
  lemma RunFacts(stream: Stream)
    ensures stream.Streamed? && stream.steps != [] ==>
              var final := stream.steps[|stream.steps| - 1];
              RunSpec(stream).Ok?
              && (RunSpec(stream).value.success <==> final.error.None? || final.error == Some(""))
              && RunSpec(stream).value.error == final.error
              && RunSpec(stream).value.intermediateSteps == Some(stream.steps)
              && (forall i :: 0 <= i < |final.messages| ==> final.messages[i].role != "assistant") ==>
                   RunSpec(stream).value.output == ""
    ensures stream.Streamed? && stream.steps != [] ==>
              var final := stream.steps[|stream.steps| - 1];
              forall k :: 0 <= k < |final.messages| && final.messages[k].role == "assistant"
                          && (forall j :: k < j < |final.messages| ==> final.messages[j].role != "assistant") ==>
                RunSpec(stream).value.output == final.messages[k].content
    ensures stream.Broke? ==>
              (RunSpec(stream).Ok? <==> stream.kind in {ValueErrorKind, KeyErrorKind})
              && (RunSpec(stream).Ok? ==> !RunSpec(stream).value.success && RunSpec(stream).value.output == ""
                                          && RunSpec(stream).value.error == Some(stream.message))
  {
    if stream.Streamed? && stream.steps != [] {
      var final := stream.steps[|stream.steps| - 1];
      forall k | 0 <= k < |final.messages| && final.messages[k].role == "assistant"
                 && (forall j :: k < j < |final.messages| ==> final.messages[j].role != "assistant")
        ensures LastAssistantContent(final.messages) == final.messages[k].content
      {
        var r := LastWithRole(final.messages, "assistant");
        assert r == Some(k);
      }
    }
  }

  /** `run`: follow the stream to its last snapshot, collecting every snapshot. */
  method Run(stream: Stream) returns (r: Result<RunReport>)
    ensures r == RunSpec(stream)
  {
    if stream.Broke? {
      if stream.kind == ValueErrorKind || stream.kind == KeyErrorKind {
        return Ok(RunReport(false, "", None, Some(stream.message)));
      }
      return Err(stream.message);
    }
    var finalState: Option<Snapshot> := None;
    var intermediateSteps: seq<Snapshot> := [];
    for i := 0 to |stream.steps|
      invariant intermediateSteps == stream.steps[..i]
      invariant finalState == if i == 0 then None else Some(stream.steps[i - 1])
    {
      var step := stream.steps[i];
      intermediateSteps := intermediateSteps + [step];
      finalState := Some(step);
    }
    assert intermediateSteps == stream.steps;
    if finalState.None? {
      return Err(NoFinalState);
    }
    var output := LastAssistantContent(finalState.value.messages);
    var error := finalState.value.error;
    r := Ok(RunReport(!Truthy(error), output, Some(intermediateSteps), error));
  }
}
