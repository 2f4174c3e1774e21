/**
 * `AgentResult` of emvr/agent/base.py, and what an agent executor's `ainvoke` does when
 * asked: it answers with a dict that may lack "output", or it raises.
 */
module AgentBase {
  import opened Outcomes

  /** One entry of "intermediate_steps", kept as its text fields. */
  type Step = map<string, string>

  /** A retrieved context document, kept as its text fields ("content", "source", ...). */
  type Doc = map<string, string>

  /** A keyword argument: a text (a thread id), a list of documents (a context), or another value. */
  datatype Param = TextParam(text: string) | DocsParam(docs: seq<Doc>) | OtherParam

  /** The keyword arguments of a `run`. */
  type Params = map<string, Param>

  datatype AgentResult = AgentResult(success: bool, output: string,
                                     intermediateSteps: Option<seq<Step>>, error: Option<string>)

  /**
   * The exception families the handlers tell apart; each stands for the class and its
   * subclasses (a `TimeoutError` is not a `RuntimeError`).
   */
  datatype ErrorKind = KeyErrorKind | ValueErrorKind | RuntimeErrorKind | TimeoutErrorKind | OtherErrorKind

  /** The executor's reply: its "output" and "intermediate_steps" keys, or the exception. */
  datatype Invocation =
    | Answered(output: Option<string>, steps: Option<seq<Step>>)
    | Raised(kind: ErrorKind, message: string)

  /**
   * The dict a worker agent of emvr/agents returns: "response", "intermediate_steps" (on
   * success), "error" (on failure) and "status".
   */
  datatype WorkerReply = WorkerReply(response: string, intermediateSteps: Option<seq<Step>>,
                                     error: Option<string>, status: string)

  /** The reply of a failed run: the error text, also inside the response. */
  function ErrorReply(e: string): WorkerReply
  {
    WorkerReply("I encountered an error: " + e, None, Some(e), "error")
  }

  /** What a worker agent's `run` does: return its result, or raise. */
  datatype RunOutcome =
    | Returned(result: AgentResult)
    | Threw(kind: ErrorKind, message: string)

  /** `str(KeyError(key))`: the key between single quotes. */
  function KeyErrorText(key: string): string
  {
    "'" + key + "'"
  }
}
