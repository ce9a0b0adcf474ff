/** The durable transactions of one Session (harness/effect.go, compact.go,
    harness.go, background.go): each is one atomic step on the graph, or is
    rejected by its own precondition and writes nothing. */
module Transactions {
  import opened Records
  import opened Validator

  /** The maintenance carrier one procedure hands to its publication. */
  datatype Carrier = Carrier(facts: seq<Fact>, consumed: Option<Evidence>, source: Option<RequestId>, producer: RequestId)

  // ---- Fixed texts ------------------------------------------------------------

  const INTERRUPTION_SIGNAL := "Operation interrupted."
  const CONTINUATION_SIGNAL := "The previous model response failed after partial output. Continue from the retained response."
  const RECOVERY_DETAIL := "Operation interrupted by Runtime loss."
  const INTERRUPTED_CONTENT := "Tool call interrupted."
  const UNKNOWN_PREFIX := "Execution outcome unknown; the action may have occurred.\n\n"
  const UNKNOWN_HOOK_PREFIX := "Pre-tool hook outcome unknown; the hook may have taken effect. The tool was not executed.\n\n"

  function ResultText(knowledge: Knowledge, hookUnknown: bool, base: Text): Text {
    if knowledge == Unknown then UNKNOWN_PREFIX + base
    else if hookUnknown then UNKNOWN_HOOK_PREFIX + base
    else base
  }

  predicate IsRunning(g: Graph, o: OpId) {
    o in g.ops && g.ops[o].status == Running
  }

  /** A running Operation with no active effect. */
  predicate IsQuiet(g: Graph, o: OpId) {
    IsRunning(g, o) && g.ops[o].active.None?
  }

  function WithOp(g: Graph, o: OpId, op: Operation): Graph {
    g.(ops := g.ops[o := op])
  }

  // ---- Admission ------------------------------------------------------------

  function NewOperation(a: Admission): Operation {
    Operation(a, Running, None, None, [], map[], None, false)
  }

  predicate CanAdmit(g: Graph, o: OpId) {
    o !in g.ops && g.session.open && g.session.current.None?
  }

  function AdmitMessage(g: Graph, o: OpId, entry: EntryId, origin: Origin, text: Text): Option<Graph> {
    if CanAdmit(g, o) then
      Some(Graph(g.session.(current := Some(o)),
                 g.ops[o := NewOperation(Admission(MessageKind, Some(entry)))],
                 g.log + [Entry(entry, Some(o), Input(origin, text))]))
    else None
  }

  function AdmitCompact(g: Graph, o: OpId): Option<Graph> {
    if CanAdmit(g, o) then
      Some(g.(session := g.session.(current := Some(o)),
              ops := g.ops[o := NewOperation(Admission(CompactKind, None))]))
    else None
  }

  // ---- Intents ----------------------------------------------------------------

  /** The published request after a conversation intent: created, or moved to the
      projection the round consumed, keeping its hook results. */
  function AdvanceRequest(request: Option<RunningRequest>, r: RequestId, ev: Evidence): RunningRequest {
    if request.None? then RunningRequest(r, ev.checkpoint, ev.boundary, [])
    else request.value.(checkpoint := ev.checkpoint, boundary := ev.boundary)
  }

  function BeginConversation(g: Graph, o: OpId, result: EntryId, r: RequestId, m: ModelRef, ev: Evidence): Option<Graph> {
    if IsQuiet(g, o) then
      Some(WithOp(g, o, g.ops[o].(active := Some(ConversationEffect(result, r, m, ev)),
                                  request := Some(AdvanceRequest(g.ops[o].request, r, ev)))))
    else None
  }

  function BeginMaintenance(g: Graph, o: OpId, result: EntryId, r: RequestId, m: ModelRef,
                            suspended: Option<RunningRequest>): Option<Graph> {
    if IsQuiet(g, o) then
      var request := if g.ops[o].request.None? then suspended else g.ops[o].request;
      Some(WithOp(g, o, g.ops[o].(active := Some(MaintenanceEffect(result, r, m)), request := request)))
    else None
  }

  function BeginRequestHook(g: Graph, o: OpId, result: EntryId, r: RequestId, hook: HookId, ev: Evidence): Option<Graph> {
    if IsQuiet(g, o) then
      var request :=
        if g.ops[o].request.None? then Some(RunningRequest(r, ev.checkpoint, ev.boundary, []))
        else g.ops[o].request;
      Some(WithOp(g, o, g.ops[o].(active := Some(RequestHookEffect(result, r, hook, ev)), request := request)))
    else None
  }

  predicate FirstPending(g: Graph, o: OpId, c: CallId) {
    IsQuiet(g, o) && |g.ops[o].pending| > 0 && g.ops[o].pending[0].call == c
  }

  function BeginCallHook(g: Graph, o: OpId, result: EntryId, c: CallId, hook: HookId): Option<Graph> {
    if FirstPending(g, o, c) then
      Some(WithOp(g, o, g.ops[o].(active := Some(CallHookEffect(result, c, hook)))))
    else None
  }

  function BeginTool(g: Graph, o: OpId, c: CallId, hooks: seq<HookId>): Option<Graph> {
    if FirstPending(g, o, c) then
      Some(WithOp(g, o, g.ops[o].(active := Some(ToolEffect(g.ops[o].pending[0].result, c, hooks)))))
    else None
  }

  // ---- Results ------------------------------------------------------------------

  /** A produced assistant entry; its calls reserve their result identities. */
  datatype Produced = Produced(id: EntryId, status: OutputStatus, text: Text, source: ModelRef, usage: Option<Usage>,
                               calls: seq<Call>, request: RequestId, evidence: Evidence)

  function AssistantEntry(o: OpId, a: Produced): Entry {
    Entry(a.id, Some(o), Assistant(a.status, a.text, a.source, a.usage, a.calls, a.request, a.evidence))
  }

  function AssistantEntries(o: OpId, a: Option<Produced>): seq<Entry> {
    if a.Some? then [AssistantEntry(o, a.value)] else []
  }

  function CallsPending(o: OpId, a: Option<Produced>): seq<Pending> {
    if a.Some? then CallsOf(AssistantEntry(o, a.value), o) else []
  }

  function ChargeProduced(t: Totals, a: Option<Produced>): Totals {
    if a.Some? && a.value.usage.Some? then Charge(t, a.value.source, a.value.usage.value) else t
  }

  /** The fixed model-visible content of a signal kind. */
  function SignalContent(kind: SignalKind): Text {
    match kind
    case InterruptionSignal => INTERRUPTION_SIGNAL
    case ContinuationSignal => CONTINUATION_SIGNAL
    case CompletionSignal => ""
  }

  function SignalEntry(id: EntryId, o: OpId, kind: SignalKind): Entry {
    Entry(id, Some(o), Signal(kind, Some(o), SignalContent(kind)))
  }

  /** The running result of a model effect: the produced entry, the continuation
      signal of a continue disposition, and the cleared effect. */
  function CommitModelResult(g: Graph, o: OpId, a: Option<Produced>, signal: Option<EntryId>): Option<Graph> {
    if IsRunning(g, o) && g.ops[o].active.Some? && g.ops[o].active.value.ConversationEffect? then
      var op := g.ops[o];
      var pending := op.pending + CallsPending(o, a);
      Some(Graph(g.session.(usage := ChargeProduced(g.session.usage, a)),
                 g.ops[o := op.(active := None, usage := ChargeProduced(op.usage, a), pending := pending,
                                request := if pending == [] then None else op.request)],
                 g.log + AssistantEntries(o, a) +
                 (if signal.Some? then [SignalEntry(signal.value, o, ContinuationSignal)] else [])))
    else None
  }

  /** The empty running result of a completed maintenance model effect. */
  function CommitMaintenanceResult(g: Graph, o: OpId): Option<Graph> {
    if IsRunning(g, o) && g.ops[o].active.Some? && g.ops[o].active.value.MaintenanceEffect? then
      Some(WithOp(g, o, g.ops[o].(active := None, unreportedMaintenance := true)))
    else None
  }

  function IndexOfCall(pending: seq<Pending>, c: CallId): int
    ensures -1 <= IndexOfCall(pending, c) < |pending|
    ensures IndexOfCall(pending, c) >= 0 ==> pending[IndexOfCall(pending, c)].call == c
    ensures forall i :: 0 <= i < |pending| && pending[i].call == c ==> 0 <= IndexOfCall(pending, c) <= i
  {
    if |pending| == 0 then -1
    else if pending[0].call == c then 0
    else
      var rest := IndexOfCall(pending[1..], c);
      assert forall i :: 0 < i < |pending| ==> pending[i] == pending[1..][i - 1];
      if rest < 0 then -1 else rest + 1
  }

  function WithoutIndex<T>(s: seq<T>, i: int): seq<T>
    requires 0 <= i < |s|
  {
    s[..i] + s[i + 1..]
  }

  function AfterToolResult(op: Operation, i: int): Operation
    requires 0 <= i < |op.pending|
  {
    var pending := WithoutIndex(op.pending, i);
    op.(active := None, pending := pending, request := if pending == [] then None else op.request)
  }

  /** The settled outcome of one call. */
  datatype Outcome = Outcome(result: ResultStatus, text: Text, knowledge: Knowledge, accepted: bool, hooks: seq<HookId>)

  function ToolResultEntry(o: OpId, p: Pending, out: Outcome): Entry {
    Entry(p.result, Some(o), ToolResult(p.call, p.assistant, out.result, out.text, out.knowledge, out.accepted, out.hooks))
  }

  /** An executor-backed result: it requires the call's committed intent and
      carries that intent's accepted selection. */
  function CommitExecuted(g: Graph, o: OpId, c: CallId, result: ResultStatus, text: Text, knowledge: Knowledge): Option<Graph> {
    if IsRunning(g, o) && g.ops[o].active.Some? && g.ops[o].active.value.ToolEffect? && g.ops[o].active.value.call == c &&
       IndexOfCall(g.ops[o].pending, c) >= 0 then
      var op := g.ops[o];
      var i := IndexOfCall(op.pending, c);
      if op.active.value.result != op.pending[i].result then None else
        Some(Graph(g.session, g.ops[o := AfterToolResult(op, i)],
                   g.log + [ToolResultEntry(o, op.pending[i], Outcome(result, text, knowledge, true, op.active.value.hooks))]))
    else None
  }

  /** An immediate, denied or failed-chain result: it requires a quiet Operation. */
  function CommitImmediate(g: Graph, o: OpId, c: CallId, out: Outcome): Option<Graph> {
    if IsQuiet(g, o) && IndexOfCall(g.ops[o].pending, c) >= 0 then
      var op := g.ops[o];
      var i := IndexOfCall(op.pending, c);
      Some(Graph(g.session, g.ops[o := AfterToolResult(op, i)], g.log + [ToolResultEntry(o, op.pending[i], out)]))
    else None
  }

  predicate IsHookEffect(effect: Effect) {
    effect.CallHookEffect? || effect.RequestHookEffect?
  }

  function HookEntry(o: OpId, effect: Effect, outcome: HookStatus, knowledge: Knowledge): Entry
    requires IsHookEffect(effect)
  {
    if effect.CallHookEffect? then
      Entry(effect.result, Some(o), HookResult(effect.hook, ForCall(effect.call), outcome, knowledge, None))
    else
      Entry(effect.result, Some(o), HookResult(effect.hook, ForRequest(effect.request), outcome, knowledge, Some(effect.evidence)))
  }

  /** A settled hook effect; a request-bound one extends the published request. */
  function CommitHook(g: Graph, o: OpId, outcome: HookStatus, knowledge: Knowledge): Option<Graph> {
    if IsRunning(g, o) && g.ops[o].active.Some? && IsHookEffect(g.ops[o].active.value) then
      var op := g.ops[o];
      var request :=
        if op.active.value.RequestHookEffect? && op.request.Some?
        then Some(op.request.value.(hookResults := op.request.value.hookResults + [op.active.value.result]))
        else op.request;
      Some(Graph(g.session, g.ops[o := op.(active := None, request := request)],
                 g.log + [HookEntry(o, op.active.value, outcome, knowledge)]))
    else None
  }

  // ---- Terminal settlement ---------------------------------------------------------

  /** What one terminal publication brings beside the register it settles. */
  datatype Ending = Ending(
    status: Status,
    detail: Text,
    assistant: Option<Produced>,
    usage: Option<(ModelRef, Usage)>,
    maintenance: bool,
    carrier: Option<Carrier>,
    signal: EntryId,
    settlement: EntryId)

  function CarriedFacts(c: Option<Carrier>): seq<Fact> {
    if c.Some? then c.value.facts else []
  }

  predicate WitnessesRequest(facts: seq<Fact>, r: RequestId) {
    exists i :: 0 <= i < |facts| && facts[i].request == r
  }

  predicate IsModelEffect(active: Option<Effect>) {
    active.Some? && (active.value.ConversationEffect? || active.value.MaintenanceEffect?)
  }

  /** The interrupted hook result recorded for an unfinished hook effect. */
  function HookRemnant(o: OpId, active: Option<Effect>): seq<Entry> {
    if active.Some? && IsHookEffect(active.value) then [HookEntry(o, active.value, HookInterrupted, Unknown)] else []
  }

  predicate HookUnknown(log: seq<Entry>, o: OpId, c: CallId) {
    exists i :: 0 <= i < |log| && IsHookResult(log[i], o, ForCall(c)) && log[i].body.knowledge == Unknown
  }

  /** The interrupted result of one call that will not execute. */
  function InterruptedEntry(log: seq<Entry>, o: OpId, active: Option<Effect>, p: Pending): Entry {
    var underTool := active.Some? && active.value.ToolEffect? && active.value.call == p.call;
    var underHook := active.Some? && active.value.CallHookEffect? && active.value.call == p.call;
    var knowledge := if underTool then Unknown else NotStarted;
    ToolResultEntry(o, p,
      Outcome(ResultInterrupted, ResultText(knowledge, underHook || HookUnknown(log, o, p.call), INTERRUPTED_CONTENT),
              knowledge, underTool, if underTool then active.value.hooks else []))
  }

  function InterruptedEntries(log: seq<Entry>, o: OpId, active: Option<Effect>, calls: seq<Pending>): seq<Entry> {
    seq(|calls|, i requires 0 <= i < |calls| => InterruptedEntry(log, o, active, calls[i]))
  }

  function SettlementIdentity(op: Operation, e: Ending): EntryId {
    if e.assistant.None? && IsModelEffect(op.active) then op.active.value.result else e.settlement
  }

  /** The request a settlement witnesses. */
  function SettlementRequest(op: Operation, e: Ending): Option<RequestId> {
    if e.maintenance && e.carrier.Some? && (|e.carrier.value.facts| > 0 || e.carrier.value.consumed.Some?)
    then Some(e.carrier.value.producer)
    else if e.assistant.None? && op.active.Some? && op.active.value.MaintenanceEffect? then Some(op.active.value.request)
    else if op.request.Some? then Some(op.request.value.id)
    else if e.assistant.None? && IsModelEffect(op.active) then Some(op.active.value.request)
    else None
  }

  function SettlementConsumed(e: Ending): Option<RequestId> {
    if e.maintenance && e.carrier.Some? && (|e.carrier.value.facts| > 0 || e.carrier.value.consumed.Some?)
    then e.carrier.value.source
    else None
  }

  function SettlementEvidence(op: Operation, e: Ending): Option<Evidence> {
    if e.assistant.Some? then None
    else if op.active.Some? && op.active.value.ConversationEffect? then Some(op.active.value.evidence)
    else if e.maintenance && e.carrier.Some? then e.carrier.value.consumed
    else None
  }

  function SettlementProducer(op: Operation, e: Ending): Option<ModelRef> {
    if e.assistant.Some? then None
    else if e.usage.Some? then Some(e.usage.value.0)
    else if IsModelEffect(op.active) && !WitnessesRequest(CarriedFacts(e.carrier), op.active.value.request)
    then Some(op.active.value.model)
    else None
  }

  function SettlementEntry(o: OpId, op: Operation, e: Ending): Entry {
    Entry(SettlementIdentity(op, e), Some(o),
          Settled(Settlement(e.status, e.detail, SettlementProducer(op, e),
                             if e.assistant.None? && e.usage.Some? then Some(e.usage.value.1) else None,
                             e.maintenance, SettlementRequest(op, e), SettlementConsumed(e),
                             SettlementEvidence(op, e), CarriedFacts(e.carrier))))
  }

  function EndingUsage(t: Totals, e: Ending): Totals {
    var base :=
      if e.assistant.Some? && e.assistant.value.usage.Some? then ChargeProduced(t, e.assistant)
      else if e.usage.Some? then Charge(t, e.usage.value.0, e.usage.value.1)
      else t;
    ChargeFacts(base, CarriedFacts(e.carrier))
  }

  /** The log up to the interrupted results: the produced payload and the hook remnant. */
  function EndingOpening(log: seq<Entry>, o: OpId, op: Operation, e: Ending): seq<Entry> {
    log + AssistantEntries(o, e.assistant) + HookRemnant(o, op.active)
  }

  function EndingLog(log: seq<Entry>, o: OpId, op: Operation, e: Ending): seq<Entry> {
    var opening := EndingOpening(log, o, op, e);
    opening
    + InterruptedEntries(opening, o, op.active, op.pending + CallsPending(o, e.assistant))
    + (if e.status == Interruption then [SignalEntry(e.signal, o, InterruptionSignal)] else [])
    + [SettlementEntry(o, op, e)]
  }

  function EndedOperation(op: Operation, e: Ending): Operation {
    Operation(op.admission, e.status, None, None, [], EndingUsage(op.usage, e),
              Some(Terminal(SettlementIdentity(op, e), e.detail)),
              op.unreportedMaintenance && |CarriedFacts(e.carrier)| == 0)
  }

  /** The complete terminal transition of one running Operation. */
  function Settle(g: Graph, o: OpId, e: Ending): Graph
    requires IsRunning(g, o)
  {
    var op := g.ops[o];
    Graph(g.session.(current := None, usage := EndingUsage(g.session.usage, e)),
          g.ops[o := EndedOperation(op, e)],
          EndingLog(g.log, o, op, e))
  }

  // ---- Checkpoint -----------------------------------------------------------------------

  datatype Plan = Plan(id: EntryId, messages: seq<Message>, boundary: EntryId, consumed: Evidence)

  function CheckpointEntry(o: OpId, plan: Plan, carrier: Carrier): Entry {
    Entry(plan.id, Some(o), Checkpoint(plan.messages, plan.boundary, carrier.facts, carrier.source,
                                       if carrier.consumed.Some? then carrier.consumed.value else plan.consumed))
  }

  /** The position of an entry, or -1. */
  function PositionOf(log: seq<Entry>, id: EntryId): int
    ensures -1 <= PositionOf(log, id) < |log|
    ensures PositionOf(log, id) >= 0 ==> log[PositionOf(log, id)].id == id
    ensures PositionOf(log, id) < 0 ==> !Committed(log, id)
  {
    if |log| == 0 then -1
    else if log[|log| - 1].id == id then |log| - 1
    else PositionOf(log[..|log| - 1], id)
  }

  /** The newest message-bearing entry after position cut, if any. */
  function NewestMessage(log: seq<Entry>, cut: int): Option<EntryId> {
    if |log| == 0 || |log| - 1 <= cut then None
    else if MessageBearing(log[|log| - 1].body) then Some(log[|log| - 1].id)
    else NewestMessage(log[..|log| - 1], cut)
  }

  /** The canonical boundary of the projection a committed checkpoint rebuilds. */
  function RebuiltBoundary(log: seq<Entry>, cut: EntryId, checkpoint: EntryId): EntryId {
    if PositionOf(log, cut) < 0 then checkpoint
    else
      var newest := NewestMessage(log, PositionOf(log, cut));
      if newest.Some? then newest.value else checkpoint
  }

  function CheckpointedRequest(g: Graph, o: OpId, plan: Plan, carrier: Carrier): Option<RunningRequest>
    requires o in g.ops
  {
    var rebuilt := RebuiltBoundary(g.log, plan.boundary, plan.id);
    if g.ops[o].request.Some? then Some(g.ops[o].request.value.(checkpoint := Some(plan.id), boundary := rebuilt))
    else if g.ops[o].admission.kind == MessageKind && carrier.source.Some?
    then Some(RunningRequest(carrier.source.value, Some(plan.id), rebuilt, []))
    else None
  }

  /** The checkpoint part of a maintenance publication. */
  function CommitCheckpoint(g: Graph, o: OpId, plan: Plan, carrier: Carrier): Option<Graph> {
    if IsRunning(g, o) then
      var op := g.ops[o];
      Some(Graph(g.session.(checkpoint := Some(plan.id), usage := ChargeFacts(g.session.usage, carrier.facts)),
                 g.ops[o := op.(usage := ChargeFacts(op.usage, carrier.facts), unreportedMaintenance := false,
                                request := CheckpointedRequest(g, o, plan, carrier))],
                 g.log + [CheckpointEntry(o, plan, carrier)]))
    else None
  }

  // ---- The rest ----------------------------------------------------------------------------

  /** A background completion of a Session that cannot receive it. */
  function RecordCompletion(g: Graph, entry: EntryId, text: Text): Graph {
    g.(log := g.log + [Entry(entry, None, Signal(CompletionSignal, None, text))])
  }

  function SetLifecycle(g: Graph, open: bool): Option<Graph> {
    if g.session.current.None? then Some(g.(session := g.session.(open := open))) else None
  }

  /** Restart recovery of one Operation: it keeps no process-local carrier. */
  function RecoveryEnding(signal: EntryId, settlement: EntryId): Ending {
    Ending(Interruption, RECOVERY_DETAIL, None, None, false, None, signal, settlement)
  }
}
