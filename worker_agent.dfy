/**
 * `WorkerAgent.run` of emvr/agents/workers/worker.py: the context documents become a
 * numbered "Context Information" block in front of the input text, the executor answers, and the
 * answer or the exception is wrapped in the reply dict.
 */
module WorkerAgent {
  import opened Outcomes
  import opened Text
  import opened AgentBase

  const ContextHeader: string := "Context Information:\n"

  /** `doc.get(key, default)`. */
  function DocGet(doc: Doc, key: string, default: string): string
  {
    if key in doc then doc[key] else default
  }

  /** The block of the `n`-th document, numbered from 1. */
  function ContextEntry(doc: Doc, n: nat): string
  {
    "[" + NatToString(n) + "] From " + DocGet(doc, "source", "Unknown") + ": " + DocGet(doc, "content", "") + "\n\n"
  }

  /** The entries of the documents, in order. */
  function ContextEntries(docs: seq<Doc>): (r: seq<string>)
    ensures |r| == |docs| && forall i :: 0 <= i < |docs| ==> r[i] == ContextEntry(docs[i], i + 1)
  {
    seq(|docs|, i requires 0 <= i < |docs| => ContextEntry(docs[i], i + 1))
  }

  /** The context string: empty without documents, else the header and every entry. */
  function ContextString(docs: seq<Doc>): string
  {
    if docs == [] then "" else ContextHeader + Join(ContextEntries(docs), "")
  }

  /** What the executor is asked: the input text alone, or the context string and the input text. */
  function FullInput(inputText: string, docs: seq<Doc>): string
  {
    var contextStr := ContextString(docs);
    if contextStr != "" then contextStr + "\n\nTask: " + inputText else inputText
  }

  /** The "context" keyword argument (absent: none). */
  function ContextOf(kwargs: Params): seq<Doc>
  {
    if "context" in kwargs && kwargs["context"].DocsParam? then kwargs["context"].docs else []
  }

  /**
   * The context string is empty exactly when there are no documents; otherwise it opens
   * with the header and holds each document's entry, numbered from 1 in order, with
   * "Unknown" for a missing source and "" for a missing content.
   */
  lemma ContextFacts(docs: seq<Doc>)
    ensures ContextString(docs) == "" <==> docs == []
    ensures docs != [] ==> StartsWith(ContextString(docs), ContextHeader)
    ensures forall i :: 0 <= i < |docs| ==> Contains(ContextString(docs), ContextEntry(docs[i], i + 1))
  {
    if docs != [] {
      var es := ContextEntries(docs);
      assert ContextString(docs)[..|ContextHeader|] == ContextHeader;
      forall i | 0 <= i < |docs| ensures Contains(ContextString(docs), ContextEntry(docs[i], i + 1)) {
        JoinContains(es, "", i);
        ContainsAfter(ContextHeader, Join(es, ""), es[i]);
      }
    }
  }

  /**
   * Without documents the executor gets exactly the input text; with documents it gets the
   * context string, then "\n\nTask: ", then the input text.
   */
  lemma FullInputFacts(inputText: string, docs: seq<Doc>)
    ensures docs == [] ==> FullInput(inputText, docs) == inputText
    ensures docs != [] ==> FullInput(inputText, docs) == ContextString(docs) + "\n\nTask: " + inputText
  {
    ContextFacts(docs);
  }

  /** The context string built entry by entry. */
  method BuildContext(context: seq<Doc>) returns (contextStr: string)
    ensures contextStr == ContextString(context)
  {
    contextStr := "";
    if context != [] {
      contextStr := ContextHeader;
      for i := 0 to |context|
        invariant contextStr == ContextHeader + Join(ContextEntries(context)[..i], "")
      {
        var entry := DescribeDoc(context[i], i + 1);
        JoinStep(ContextEntries(context), i, ContextHeader);
        contextStr := contextStr + entry;
      }
      assert ContextEntries(context)[..|context|] == ContextEntries(context);
    }
  }

  /** One document's entry, as the loop writes it. */
  method DescribeDoc(doc: Doc, n: nat) returns (entry: string)
    ensures entry == ContextEntry(doc, n)
  {
    var content := DocGet(doc, "content", "");
    var source := DocGet(doc, "source", "Unknown");
    entry := "[" + NatToString(n) + "] From " + source + ": " + content + "\n\n";
  }

  /** The loop step: adding the `i`-th part extends the joined prefix by one part. */
  lemma JoinStep(parts: seq<string>, i: nat, head: string)
    requires i < |parts|
    ensures head + Join(parts[..i], "") + parts[i] == head + Join(parts[..i + 1], "")
  {
    JoinAppend(parts[..i], parts[i]);
    assert parts[..i + 1] == parts[..i] + [parts[i]];
  }

  /** Joining with no separator: one more part adds it at the end. */
  lemma {:induction false} JoinAppend(parts: seq<string>, last: string)
    ensures Join(parts + [last], "") == Join(parts, "") + last
    decreases |parts|
  {
    if parts == [] {
      assert [] + [last] == [last];
    } else {
      JoinAppend(parts[1..], last);
      assert (parts + [last])[1..] == parts[1..] + [last];
      if |parts| == 1 {
        assert Join(parts[1..] + [last], "") == last;
      }
    }
  }

  /** The reply for the executor's answer. */
  function ReplyOf(inv: Invocation): WorkerReply
  {
    match inv
    case Answered(output, steps) =>
      if output.Some? then WorkerReply(output.value, Some(steps.GetOr([])), None, "success")
      else ErrorReply(KeyErrorText("output"))
    case Raised(_, message) => ErrorReply(message)
  }

  /**
   * `run`: the reply succeeds exactly when the executor, asked the full input, answers
   * with an output, which becomes the response with the steps (default []); any exception
   * (a missing "output" included) gives status "error" with the text in "error" and in the
   * response.
   */
  lemma ReplyFacts(inv: Invocation)
    ensures ReplyOf(inv).status == "success" <==> inv.Answered? && inv.output.Some?
    ensures ReplyOf(inv).status == "success" ==>
              ReplyOf(inv).response == inv.output.value && ReplyOf(inv).error.None?
              && ReplyOf(inv).intermediateSteps == Some(inv.steps.GetOr([]))
    ensures ReplyOf(inv).status != "success" ==>
              ReplyOf(inv).status == "error" && ReplyOf(inv).error.Some?
              && ReplyOf(inv).response == "I encountered an error: " + ReplyOf(inv).error.value
    ensures inv.Raised? ==> ReplyOf(inv).error == Some(inv.message)
  {
  }

  /** `WorkerAgent.run` with the executor as a function of its input. */
  method Run(inputText: string, kwargs: Params, executor: string -> Invocation) returns (reply: WorkerReply)
    ensures reply == ReplyOf(executor(FullInput(inputText, ContextOf(kwargs))))
  {
    var context := ContextOf(kwargs);
    var contextStr := BuildContext(context);
    var fullInput := if contextStr != "" then contextStr + "\n\nTask: " + inputText else inputText;
    reply := ReplyOf(executor(fullInput));
  }
}
