/** The event log and the messages rebuilt from it.

    Text is a sequence of bytes, one per `char`. What a user message says
    (attachments, date stamp and all) is already rendered into blocks: the
    rendering depends only on the event itself.
  */
module Domain {

  type Seq = nat

  /** The empty id is an event that belongs to no run. */
  type RunId = string

  const NO_RUN: RunId := ""

  /** Messages nobody typed state no trust. */
  datatype Trust = Unstated | Trusted | Untrusted

  datatype Status =
    | Queued
    | Running
    | AwaitingApproval
    | AwaitingInput
    | Cancelling
    | Completed
    | Cancelled
    | Failed

  predicate IsTerminal(status: Status) {
    status.Completed? || status.Cancelled? || status.Failed?
  }

  datatype Block =
    | Text(text: string)
    | ToolUse(id: string, name: string, args: string)
    | ToolResult(callId: string, tool: string, content: string, isError: bool)
    | Image(mediaType: string)

  type Use = b: Block | b.ToolUse? witness ToolUse("", "", "")

  type Outcome = b: Block | b.ToolResult? witness ToolResult("", "", "", false)

  datatype Role = User | Assistant | Tool

  datatype Message = Message(role: Role, content: seq<Block>)

  /** A message with the last event folded into it. */
  datatype Bounded = Bounded(message: Message, lastSeq: Seq, trust: Trust, fold: bool, fromSeq: Seq)

  /** A recorded compaction: a summary standing for the log from `from` through `through`. */
  datatype Fold = Fold(summary: string, from: Seq, through: Seq, folded: int, before: int, after: int)

  datatype Payload =
    | UserMessageAdded(content: seq<Block>, trust: Trust)
    | AssistantTextDelta(text: string)
    | AssistantReasoningDelta(thought: string)
    | ToolCallRequested(callId: string, name: string, args: string)
    | ToolCallCompleted(doneId: string, tool: string, output: string, isError: bool)
    | AssistantMessageCompleted
    | RunStateChanged(status: Status)
    | ConversationCompacted(fold: Fold)
    | Other

  datatype Event = Event(seqNo: Seq, run: RunId, payload: Payload)

  /** A log is ordered by sequence number, and the first number handed out is 1. */
  ghost predicate Sorted(log: seq<Event>) {
    && (forall i :: 0 <= i < |log| ==> 0 < log[i].seqNo)
    && (forall i, j :: 0 <= i < j < |log| ==> log[i].seqNo < log[j].seqNo)
  }

  /** Events after a point in the log. */
  function EventsAfter(log: seq<Event>, t: Seq): (kept: seq<Event>)
    ensures forall e :: e in kept ==> e in log && t < e.seqNo
  {
    if log == [] then []
    else
      var kept := EventsAfter(log[..|log| - 1], t);
      if t < log[|log| - 1].seqNo then kept + [log[|log| - 1]] else kept
  }

  lemma {:induction false} SortedPrefix(log: seq<Event>, n: nat)
    requires Sorted(log) && n <= |log|
    ensures Sorted(log[..n])
  {
  }

  lemma {:induction false} NothingAfter(log: seq<Event>, t: Seq)
    requires forall i :: 0 <= i < |log| ==> log[i].seqNo <= t
    ensures EventsAfter(log, t) == []
  {
    if log != [] {
      NothingAfter(log[..|log| - 1], t);
    }
  }
}
