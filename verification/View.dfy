/** The conversation view a request consumes: what the log projects after the newest
    checkpoint (harness/context.go). */
module View {
  import opened Records
  import opened Transactions

  /** The position at or before which nothing projects: -1 without a checkpoint. */
  function Cutoff(log: seq<Entry>, checkpoint: Option<EntryId>): int
    ensures -1 <= Cutoff(log, checkpoint) < |log|
  {
    if checkpoint.None? || PositionOf(log, checkpoint.value) < 0 then -1
    else
      var c := log[PositionOf(log, checkpoint.value)].body;
      if c.Checkpoint? then PositionOf(log, c.boundary) else -1
  }

  /** The boundary a projection reports: the newest message of its kept tail, else the checkpoint. */
  function ProjectedBoundary(log: seq<Entry>, checkpoint: Option<EntryId>): Option<EntryId> {
    var newest := NewestMessage(log, Cutoff(log, checkpoint));
    if newest.Some? then newest else checkpoint
  }

  /** A proposed cut: the prior checkpoint, or a projecting entry after the prior
      cut and at or before the frozen boundary. */
  predicate CoveredBoundary(log: seq<Entry>, checkpoint: Option<EntryId>, frozen: EntryId, proposed: EntryId) {
    var p := PositionOf(log, proposed);
    0 <= p && (checkpoint == Some(proposed) ||
               (MessageBearing(log[p].body) && Cutoff(log, checkpoint) < p <= PositionOf(log, frozen)))
  }

  /** Markup characters of a signal are escaped before it is wrapped. */
  function Escaped(text: Text): Text {
    if |text| == 0 then ""
    else (match text[0]
          case '&' => "&amp;"
          case '<' => "&lt;"
          case '>' => "&gt;"
          case c => [c]) + Escaped(text[1..])
  }

  function SignalText(text: Text): Text {
    "<system-signal>" + Escaped(text) + "</system-signal>"
  }

  /** The message an entry contributes; settlements, hook results and checkpoints contribute none. */
  function ProjectEntry(b: Body): seq<Message> {
    match b
    case Input(_, text) => [UserMessage(text)]
    case Assistant(_, text, _, _, calls, _, _) => [AssistantMessage(text, CallIds(calls))]
    case ToolResult(answers, _, _, text, _, _, _) => [ToolMessage(answers, text)]
    case Signal(_, _, text) => [UserMessage(SignalText(text))]
    case _ => []
  }

  function CallIds(calls: seq<Call>): seq<CallId> {
    seq(|calls|, k requires 0 <= k < |calls| => calls[k].id)
  }

  /** The messages of the entries after a cut. */
  function Tail(log: seq<Entry>, cut: int): seq<Message> {
    if |log| == 0 || |log| - 1 <= cut then []
    else Tail(log[..|log| - 1], cut) + ProjectEntry(log[|log| - 1].body)
  }

  /** The named checkpoint's own messages. */
  function Prior(log: seq<Entry>, checkpoint: Option<EntryId>): seq<Message> {
    if checkpoint.None? || PositionOf(log, checkpoint.value) < 0 then []
    else
      var c := log[PositionOf(log, checkpoint.value)].body;
      if c.Checkpoint? && PositionOf(log, c.boundary) >= 0 then c.messages else []
  }

  function Project(log: seq<Entry>, checkpoint: Option<EntryId>): seq<Message> {
    Prior(log, checkpoint) + Tail(log, Cutoff(log, checkpoint))
  }
}
