/** The durable records of one Session: an append-only entry log, one Session
    register and one register per Operation.

    An entry's sequence number is its position in the log: storage assigns
    strictly increasing sequences and never deletes an entry. */
module Records {
  datatype Option<+T> = None | Some(value: T)

  type EntryId = nat
  type OpId = nat
  type CallId = nat
  type RequestId = nat
  type ModelRef = nat

  /** Model-visible text. */
  type Text = string

  /** An extension hook, named by its extension and its own identity. */
  datatype HookId = HookId(extension: nat, hook: nat)

  datatype Usage = Usage(input: int, cached: int, output: int)
  type Totals = map<ModelRef, Usage>

  /** The canonical references of the projection a request consumed, and the
      hooks that contributed to it, in order. */
  datatype Evidence = Evidence(checkpoint: Option<EntryId>, boundary: EntryId, hooks: seq<HookId>)

  /** A published tool call and the identity reserved for its result. */
  datatype Call = Call(id: CallId, result: EntryId)

  datatype Message =
    | UserMessage(text: Text)
    | AssistantMessage(text: Text, calls: seq<CallId>)
    | ToolMessage(answers: CallId, text: Text)

  datatype Fact = Fact(request: RequestId, model: ModelRef, usage: Option<Usage>)

  datatype Origin = User | Runtime
  datatype OutputStatus = Completed | Errored | Interrupted
  datatype ResultStatus = ResultSuccess | ResultError | ResultDenied | ResultInterrupted
  datatype HookStatus = HookSucceeded | HookFailed | HookInterrupted
  datatype Knowledge = NotStarted | Observed | Unknown
  datatype SignalKind = InterruptionSignal | ContinuationSignal | CompletionSignal
  datatype Binding = ForCall(call: CallId) | ForRequest(request: RequestId)
  datatype Status = Running | Success | Failure | Interruption

  datatype Settlement = Settlement(
    status: Status,
    detail: Text,
    producer: Option<ModelRef>,
    usage: Option<Usage>,
    maintenance: bool,
    request: Option<RequestId>,
    consumed: Option<RequestId>,
    evidence: Option<Evidence>,
    facts: seq<Fact>)

  datatype Body =
    | Input(origin: Origin, text: Text)
    | Assistant(status: OutputStatus, text: Text, source: ModelRef, usage: Option<Usage>,
                calls: seq<Call>, request: RequestId, evidence: Evidence)
    | ToolResult(answers: CallId, assistant: EntryId, result: ResultStatus, text: Text,
                 knowledge: Knowledge, accepted: bool, hooks: seq<HookId>)
    | Signal(kind: SignalKind, related: Option<OpId>, text: Text)
    | HookResult(hook: HookId, binding: Binding, outcome: HookStatus, knowledge: Knowledge,
                 consumes: Option<Evidence>)
    | Settled(settlement: Settlement)
    | Checkpoint(messages: seq<Message>, boundary: EntryId, facts: seq<Fact>,
                 consumed: Option<RequestId>, evidence: Evidence)

  /** A committed entry; a copied fork-prefix entry and a background completion
      signal have no owner. */
  datatype Entry = Entry(id: EntryId, owner: Option<OpId>, body: Body)

  datatype Effect =
    | ConversationEffect(result: EntryId, request: RequestId, model: ModelRef, evidence: Evidence)
    | MaintenanceEffect(result: EntryId, request: RequestId, model: ModelRef)
    | ToolEffect(result: EntryId, call: CallId, hooks: seq<HookId>)
    | CallHookEffect(result: EntryId, call: CallId, hook: HookId)
    | RequestHookEffect(result: EntryId, request: RequestId, hook: HookId, evidence: Evidence)

  datatype RunningRequest = RunningRequest(id: RequestId, checkpoint: Option<EntryId>, boundary: EntryId,
                                           hookResults: seq<EntryId>)

  datatype Pending = Pending(assistant: EntryId, call: CallId, result: EntryId)

  datatype Terminal = Terminal(settlement: EntryId, detail: Text)

  datatype RequestKind = MessageKind | CompactKind

  datatype Admission = Admission(kind: RequestKind, admitted: Option<EntryId>)

  datatype Operation = Operation(
    admission: Admission,
    status: Status,
    active: Option<Effect>,
    request: Option<RunningRequest>,
    pending: seq<Pending>,
    usage: Totals,
    terminal: Option<Terminal>,
    unreportedMaintenance: bool)

  datatype Session = Session(fork: bool, open: bool, current: Option<OpId>, checkpoint: Option<EntryId>, usage: Totals)

  datatype Graph = Graph(session: Session, ops: map<OpId, Operation>, log: seq<Entry>)

  /** The admissions of a Session: the part of its Operation registers that never changes. */
  function Admissions(ops: map<OpId, Operation>): map<OpId, Admission> {
    map o | o in ops :: ops[o].admission
  }

  /** True when some entry of the log carries this identity. */
  ghost predicate Committed(log: seq<Entry>, id: EntryId) {
    exists i :: 0 <= i < |log| && log[i].id == id
  }

  predicate Owned(e: Entry, o: OpId) {
    e.owner == Some(o)
  }

  /** Entries that project into the conversation a request consumes. */
  predicate ConversationBearing(b: Body) {
    b.Input? || b.Assistant? || b.ToolResult? || b.Signal? || b.Checkpoint?
  }

  /** Entries that contribute an ordinary message of their own. */
  predicate MessageBearing(b: Body) {
    b.Input? || b.Assistant? || b.ToolResult? || b.Signal?
  }
}
