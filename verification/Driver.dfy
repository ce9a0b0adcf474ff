/** One Session under its execution driver (harness/effect.go, compact.go,
    context.go, execution.go): the durable graph, what the driver holds in
    memory between two transactions, and every step the pair can take.

    A step is one critical section: a transaction with its view adoption, or one
    in-memory move. `Crash` may fall between any two steps. Values the driver
    receives from hooks, models, tools and strategies are step parameters. */
module Driver {
  import opened Records
  import opened Validator
  import opened Transactions
  import opened View
  import Pairing

  /** A selected hook of one boundary, in configured order. */
  datatype Planned = Planned(id: HookId, effectful: bool)

  /** Where the running driver is between two transactions. */
  datatype Frame =
    | Idle
    | Rounding(request: RequestId, plan: seq<Planned>, done: nat, checkpoint: Option<EntryId>, boundary: EntryId, stopped: bool)
    | Chaining(call: CallId, plan: seq<Planned>, done: nat, broken: Option<HookStatus>)
    | Manual(checkpoint: Option<EntryId>, tail: Option<EntryId>)
    | Lost

  /** `facts` are the maintenance facts no publication has recorded yet. `invoked`
      is the history of callbacks given action authority, `started` says whether the
      active effect's callback is one of them, `reported` holds the results executors
      themselves produced, and `intended` every model request whose intent was committed. */
  datatype Sys = Sys(g: Graph, frame: Frame, facts: seq<Fact>, invoked: seq<Invocation>, started: bool, reported: set<EntryId>,
                     intended: set<(OpId, RequestId)>)

  datatype Invocation =
    | Executed(owner: OpId, call: CallId)
    | Ran(owner: OpId, binding: Binding, hook: HookId)
    | Requested(owner: OpId, request: RequestId)

  function Ids(plan: seq<Planned>): seq<HookId> {
    seq(|plan|, i requires 0 <= i < |plan| => plan[i].id)
  }

  function Effectful(plan: seq<Planned>): seq<HookId> {
    if |plan| == 0 then []
    else Effectful(plan[..|plan| - 1]) + if plan[|plan| - 1].effectful then [plan[|plan| - 1].id] else []
  }

  predicate DistinctPlan(plan: seq<Planned>) {
    forall i, j :: 0 <= i < j < |plan| ==> plan[i].id != plan[j].id
  }

  /** The hooks of a plan that have contributed so far. */
  function Contributed(f: Frame): seq<HookId>
    requires (f.Rounding? || f.Chaining?) && f.done <= |f.plan|
  {
    Ids(f.plan[..f.done])
  }

  function RoundEvidence(f: Frame): Evidence
    requires f.Rounding? && f.done <= |f.plan|
  {
    Evidence(f.checkpoint, f.boundary, Contributed(f))
  }

  // ---- Freshness ------------------------------------------------------------------

  /** An identity the store has never handed out in this Session. */
  ghost predicate FreshEntry(g: Graph, id: EntryId) {
    IdentityFree(g.log, id) &&
    forall o :: o in g.ops && g.ops[o].active.Some? ==> g.ops[o].active.value.result != id
  }

  predicate Mentions(b: Body, r: RequestId) {
    OrderKey(b) == Some(r) || (b.Settled? && b.settlement.request == Some(r)) ||
    exists k :: 0 <= k < |FactsOf(b)| && FactsOf(b)[k].request == r
  }

  predicate ActiveNames(active: Option<Effect>, r: RequestId) {
    active.Some? &&
    match active.value
    case ConversationEffect(_, q, _, _) => q == r
    case MaintenanceEffect(_, q, _) => q == r
    case RequestHookEffect(_, q, _, _) => q == r
    case _ => false
  }

  ghost predicate FreshRequest(s: Sys, r: RequestId) {
    && (forall i :: 0 <= i < |s.g.log| ==> !Mentions(s.g.log[i].body, r))
    && (forall k :: 0 <= k < |s.facts| ==> s.facts[k].request != r)
    && (forall o :: o in s.g.ops ==> !ActiveNames(s.g.ops[o].active, r) &&
                                     (s.g.ops[o].request.Some? ==> s.g.ops[o].request.value.id != r))
    && (s.frame.Rounding? ==> s.frame.request != r)
    && (forall k :: 0 <= k < |s.invoked| ==> !(s.invoked[k].Requested? && s.invoked[k].request == r))
  }

  /** New calls: fresh reservations, and no call identity the Operation already published. */
  ghost predicate FreshProduced(g: Graph, o: OpId, a: Produced) {
    FreshCallIds(g, o, a.calls) && forall k :: 0 <= k < |a.calls| ==> FreshEntry(g, a.calls[k].result)
  }

  ghost predicate FreshCallIds(g: Graph, o: OpId, calls: seq<Call>) {
    && (forall k, l :: 0 <= k < |calls| && 0 <= l < |calls| && calls[k].result == calls[l].result ==> k == l)
    && (forall k, l :: 0 <= k < |calls| && 0 <= l < |calls| && calls[k].id == calls[l].id ==> k == l)
    && (forall i, j, k :: IsReservation(g.log, i, j) && Owned(g.log[i], o) && 0 <= k < |calls| ==>
                            g.log[i].body.calls[j].id != calls[k].id)
  }

  // ---- Maintenance carriers -----------------------------------------------------------

  /** What an outer or conversation terminal carries: the accumulated facts alone. */
  function OuterCarrier(s: Sys): Option<Carrier> {
    if s.facts == [] then None else Some(Carrier(s.facts, None, None, 0))
  }

  /** What a maintenance procedure's own publication carries. */
  function ProcedureCarrier(s: Sys, producer: RequestId): Carrier {
    match s.frame
    case Rounding(r, plan, done, _, _, _) =>
      Carrier(s.facts, if done <= |plan| then Some(RoundEvidence(s.frame)) else None, Some(r), producer)
    case Manual(checkpoint, tail) =>
      Carrier(s.facts, if tail.Some? then Some(Evidence(checkpoint, tail.value, [])) else None, None, producer)
    case _ => Carrier(s.facts, None, None, producer)
  }

  // ---- Steps -------------------------------------------------------------------------------

  datatype Step =
    | AdmitMessageStep(op: OpId, entry: EntryId, origin: Origin, text: Text)
    | AdmitCompactStep(op: OpId)
    | OpenRound(request: RequestId, plan: seq<Planned>)
    | PureRequestHook
    | StopRound
    | BeginRequestHookStep(result: EntryId)
    | CommitRequestHook(outcome: HookStatus, knowledge: Knowledge)
    | OpenManual
    | BeginMaintenanceStep(result: EntryId, producer: RequestId, model: ModelRef, committed: bool)
    | CommitMaintenance(usage: Option<Usage>)
    | CheckpointStep(id: EntryId, messages: seq<Message>, boundary: EntryId, producer: RequestId)
    | ManualCheckpointStep(id: EntryId, messages: seq<Message>, boundary: EntryId, producer: RequestId, settlement: EntryId, signal: EntryId)
    | ManualNoneStep(producer: RequestId, settlement: EntryId, signal: EntryId)
    | BeginModelStep(result: EntryId, model: ModelRef)
    | CommitModelStep(produced: Option<Produced>, continuation: Option<EntryId>)
    | FinishModelStep(status: Status, detail: Text, produced: Option<Produced>, usage: Option<Usage>, signal: EntryId, settlement: EntryId)
    | FinishMaintenanceStep(status: Status, detail: Text, producer: RequestId, signal: EntryId, settlement: EntryId)
    | FinishQuietStep(status: Status, detail: Text, signal: EntryId, settlement: EntryId)
    | OpenChain(plan: seq<Planned>)
    | PureCallHook
    | BeginCallHookStep(result: EntryId)
    | CommitCallHook(outcome: HookStatus, knowledge: Knowledge)
    | SettleCallStep(resolution: ResultStatus, text: Text, knowledge: Knowledge, accepted: bool)
    | BeginToolStep
    | Invoke
    | CommitToolStep(resolution: ResultStatus, text: Text, knowledge: Knowledge)
    | CompletionStep(entry: EntryId, text: Text)
    | LifecycleStep(open: bool)
    | Crash
    | Recover(signal: EntryId, settlement: EntryId)
    | Restart

  /** The current Operation, when the driver runs one. */
  predicate Driving(s: Sys) {
    s.g.session.current.Some? && IsRunning(s.g, s.g.session.current.value)
  }

  function Current(s: Sys): OpId
    requires Driving(s)
  {
    s.g.session.current.value
  }

  function Op(s: Sys): Operation
    requires Driving(s)
  {
    s.g.ops[Current(s)]
  }

  function Adopt(s: Sys, g: Option<Graph>, frame: Frame): Option<Sys> {
    if g.Some? then Some(s.(g := g.value, frame := frame)) else None
  }

  /** A committed intent: its callback has not been invoked yet. */
  function Intend(s: Sys, g: Option<Graph>): Option<Sys> {
    if g.Some? then Some(s.(g := g.value, started := false)) else None
  }

  function Advance(f: Frame): Frame
    requires f.Rounding? || f.Chaining?
  {
    f.(done := f.done + 1)
  }

  /** The next planned hook exists and has this mode. */
  predicate NextHook(f: Frame, effectful: bool) {
    (f.Rounding? || f.Chaining?) && f.done < |f.plan| && f.plan[f.done].effectful == effectful
  }

  predicate RoundComplete(f: Frame) {
    f.Rounding? && !f.stopped && f.done == |f.plan|
  }

  // ---- Admission and rounds ----

  ghost function AdmitMessageNext(s: Sys, o: OpId, entry: EntryId, origin: Origin, text: Text): Option<Sys> {
    if s.frame == Idle && FreshEntry(s.g, entry) then Adopt(s, AdmitMessage(s.g, o, entry, origin, text), Idle) else None
  }

  function AdmitCompactNext(s: Sys, o: OpId): Option<Sys> {
    if s.frame == Idle then Adopt(s, AdmitCompact(s.g, o), Idle) else None
  }

  /** The request boundary freezes its projection and mints its request. */
  ghost function OpenRoundNext(s: Sys, r: RequestId, plan: seq<Planned>): Option<Sys> {
    if Driving(s) && s.frame == Idle && Op(s).admission.kind == MessageKind && Op(s).pending == [] &&
       FreshRequest(s, r) && DistinctPlan(plan) && ProjectedBoundary(s.g.log, s.g.session.checkpoint).Some? then
      Some(s.(frame := Rounding(r, plan, 0, s.g.session.checkpoint,
                                ProjectedBoundary(s.g.log, s.g.session.checkpoint).value, false)))
    else None
  }

  function PureRequestHookNext(s: Sys): Option<Sys> {
    if Driving(s) && s.frame.Rounding? && !s.frame.stopped && Op(s).active.None? && NextHook(s.frame, false)
    then Some(s.(frame := Advance(s.frame))) else None
  }

  /** A pure hook failed, or cancellation stopped the boundary. */
  function StopRoundNext(s: Sys): Option<Sys> {
    if Driving(s) && s.frame.Rounding? && Op(s).active.None? then Some(s.(frame := s.frame.(stopped := true))) else None
  }

  ghost function BeginRequestHookNext(s: Sys, result: EntryId): Option<Sys> {
    if Driving(s) && s.frame.Rounding? && !s.frame.stopped && NextHook(s.frame, true) && FreshEntry(s.g, result) then
      Intend(s, BeginRequestHook(s.g, Current(s), result, s.frame.request, s.frame.plan[s.frame.done].id, RoundEvidence(s.frame)))
    else None
  }

  /** A successful hook is an observed execution; a failed or interrupted one declares what is known. */
  predicate HookKnown(outcome: HookStatus, knowledge: Knowledge) {
    outcome == HookSucceeded ==> knowledge == Observed
  }

  function CommitRequestHookNext(s: Sys, outcome: HookStatus, knowledge: Knowledge): Option<Sys> {
    if Driving(s) && s.frame.Rounding? && Op(s).active.Some? && Op(s).active.value.RequestHookEffect? &&
       HookKnown(outcome, knowledge) then
      Adopt(s, CommitHook(s.g, Current(s), outcome, knowledge),
            if outcome == HookSucceeded then Advance(s.frame) else s.frame.(stopped := true))
    else None
  }

  // ---- Maintenance ----

  function OpenManualNext(s: Sys): Option<Sys> {
    if Driving(s) && s.frame == Idle && Op(s).admission.kind == CompactKind then
      Some(s.(frame := Manual(s.g.session.checkpoint, ProjectedBoundary(s.g.log, s.g.session.checkpoint))))
    else None
  }

  predicate InProcedure(s: Sys) {
    Driving(s) && (RoundComplete(s.frame) || s.frame.Manual?)
  }

  function Suspended(f: Frame): Option<RunningRequest> {
    if f.Rounding? then Some(RunningRequest(f.request, f.checkpoint, f.boundary, [])) else None
  }

  /** The input is retained as a fact; the intent commits unless cancellation came first. */
  ghost function BeginMaintenanceNext(s: Sys, result: EntryId, producer: RequestId, m: ModelRef, committed: bool): Option<Sys> {
    if InProcedure(s) && Op(s).active.None? && FreshEntry(s.g, result) && FreshRequest(s, producer) then
      var retained := s.(facts := s.facts + [Fact(producer, m, None)]);
      if committed then Intend(retained.(intended := s.intended + {(Current(s), producer)}),
                               BeginMaintenance(s.g, Current(s), result, producer, m, Suspended(s.frame)))
      else Some(retained)
    else None
  }

  function WithUsage(facts: seq<Fact>, usage: Option<Usage>): seq<Fact> {
    if |facts| == 0 || usage.None? then facts
    else facts[|facts| - 1 := facts[|facts| - 1].(usage := usage)]
  }

  function CommitMaintenanceNext(s: Sys, usage: Option<Usage>): Option<Sys> {
    if InProcedure(s) then
      Adopt(s.(facts := WithUsage(s.facts, usage)), CommitMaintenanceResult(s.g, Current(s)), s.frame)
    else None
  }

  ghost predicate ProposalValid(s: Sys, boundary: EntryId) {
    && (s.frame.Rounding? || (s.frame.Manual? && s.frame.tail.Some?))
    && CoveredBoundary(s.g.log, s.frame.checkpoint, if s.frame.Rounding? then s.frame.boundary else s.frame.tail.value, boundary)
    && SafeCut(s.g.log, PositionOf(s.g.log, boundary))
  }

  /** The materialised checkpoint and the rebuilt kept tail hold complete exchanges only. */
  predicate RebuiltPaired(s: Sys, messages: seq<Message>, boundary: EntryId) {
    Pairing.Paired(messages + Tail(s.g.log, PositionOf(s.g.log, boundary)))
  }

  ghost function CheckpointNext(s: Sys, id: EntryId, messages: seq<Message>, boundary: EntryId, producer: RequestId): Option<Sys> {
    if InProcedure(s) && s.frame.Rounding? && Op(s).active.None? && FreshEntry(s.g, id) && ProposalValid(s, boundary) &&
       RebuiltPaired(s, messages, boundary) then
      Adopt(s.(facts := []),
            CommitCheckpoint(s.g, Current(s), Plan(id, messages, boundary, RoundEvidence(s.frame)), ProcedureCarrier(s, producer)),
            s.frame.(checkpoint := Some(id), boundary := RebuiltBoundary(s.g.log, boundary, id)))
    else None
  }

  /** The settled outcome of a finished Operation. */
  function Finished(s: Sys, g: Graph): Sys {
    s.(g := g, frame := Idle, facts := [], started := false)
  }

  function SuccessEnding(carrier: Option<Carrier>, settlement: EntryId, signal: EntryId): Ending {
    Ending(Success, "", None, None, carrier.Some?, carrier, signal, settlement)
  }

  /** A manual checkpoint and its Operation's success, in one transaction. */
  ghost function ManualCheckpointNext(s: Sys, id: EntryId, messages: seq<Message>, boundary: EntryId, producer: RequestId,
                                      settlement: EntryId, signal: EntryId): Option<Sys> {
    if InProcedure(s) && s.frame.Manual? && Op(s).active.None? && ProposalValid(s, boundary) &&
       RebuiltPaired(s, messages, boundary) && FreshEntry(s.g, id) && FreshEntry(s.g, settlement) && FreshEntry(s.g, signal) &&
       id != settlement && id != signal && settlement != signal then
      var g := CommitCheckpoint(s.g, Current(s),
                                Plan(id, messages, boundary, Evidence(s.frame.checkpoint, s.frame.tail.value, [])),
                                ProcedureCarrier(s, producer));
      if g.None? || !IsRunning(g.value, Current(s)) then None
      else Some(Finished(s, Settle(g.value, Current(s), SuccessEnding(None, settlement, signal))))
    else None
  }

  ghost function ManualNoneNext(s: Sys, producer: RequestId, settlement: EntryId, signal: EntryId): Option<Sys> {
    if InProcedure(s) && s.frame.Manual? && Op(s).active.None? &&
       FreshEntry(s.g, settlement) && FreshEntry(s.g, signal) && settlement != signal then
      Some(Finished(s, Settle(s.g, Current(s),
                              SuccessEnding(if s.facts == [] then None else Some(ProcedureCarrier(s, producer)), settlement, signal))))
    else None
  }

  // ---- Model effects ----

  ghost function BeginModelNext(s: Sys, result: EntryId, m: ModelRef): Option<Sys> {
    if Driving(s) && RoundComplete(s.frame) && FreshEntry(s.g, result) then
      Intend(s.(intended := s.intended + {(Current(s), s.frame.request)}),
             BeginConversation(s.g, Current(s), result, s.frame.request, m, RoundEvidence(s.frame)))
    else None
  }

  /** A produced entry takes the intent's identity, request and evidence. */
  ghost predicate ProducedBy(s: Sys, a: Produced)
    requires Driving(s)
  {
    && Op(s).active.Some? && Op(s).active.value.ConversationEffect?
    && a.id == Op(s).active.value.result && a.request == Op(s).active.value.request && a.evidence == Op(s).active.value.evidence
    && FreshProduced(s.g, Current(s), a)
  }

  ghost predicate FreshBeside(s: Sys, a: Option<Produced>, id: EntryId) {
    FreshEntry(s.g, id) && (a.Some? ==> forall k :: 0 <= k < |a.value.calls| ==> a.value.calls[k].result != id)
  }

  ghost function CommitModelNext(s: Sys, a: Option<Produced>, signal: Option<EntryId>): Option<Sys> {
    if Driving(s) && s.frame.Rounding? && Op(s).active.Some? && Op(s).active.value.ConversationEffect? &&
       (a.Some? ==> ProducedBy(s, a.value)) && (signal.Some? ==> FreshBeside(s, a, signal.value)) then
      Adopt(s, CommitModelResult(s.g, Current(s), a, signal), Idle)
    else None
  }

  predicate TerminalStatus(status: Status) {
    status != Running
  }

  ghost function FinishModelNext(s: Sys, status: Status, detail: Text, a: Option<Produced>, usage: Option<Usage>,
                                 signal: EntryId, settlement: EntryId): Option<Sys> {
    if Driving(s) && s.frame.Rounding? && Op(s).active.Some? && Op(s).active.value.ConversationEffect? &&
       status in {Failure, Interruption} && (a.Some? ==> ProducedBy(s, a.value) && usage.None?) &&
       FreshBeside(s, a, signal) && FreshBeside(s, a, settlement) && signal != settlement then
      Some(Finished(s, Settle(s.g, Current(s),
                              Ending(status, detail, a, if usage.Some? then Some((Op(s).active.value.model, usage.value)) else None,
                                     false, OuterCarrier(s), signal, settlement))))
    else None
  }

  /** A maintenance terminal: from its live model effect, or quiet between stages. */
  ghost function FinishMaintenanceNext(s: Sys, status: Status, detail: Text, producer: RequestId, signal: EntryId,
                                       settlement: EntryId): Option<Sys> {
    if InProcedure(s) && (Op(s).active.None? || Op(s).active.value.MaintenanceEffect?) && status in {Failure, Interruption} &&
       FreshEntry(s.g, signal) && FreshEntry(s.g, settlement) && signal != settlement then
      Some(Finished(s, Settle(s.g, Current(s),
                              Ending(status, detail, None, None, true, Some(ProcedureCarrier(s, producer)), signal, settlement))))
    else None
  }

  /** The outer terminal of a quiet Operation. */
  ghost function FinishQuietNext(s: Sys, status: Status, detail: Text, signal: EntryId, settlement: EntryId): Option<Sys> {
    if Driving(s) && s.frame != Lost && Op(s).active.None? && TerminalStatus(status) &&
       FreshEntry(s.g, signal) && FreshEntry(s.g, settlement) && signal != settlement then
      Some(Finished(s, Settle(s.g, Current(s),
                              Ending(status, detail, None, None, false, OuterCarrier(s), signal, settlement))))
    else None
  }

  // ---- Calls ----

  ghost function OpenChainNext(s: Sys, plan: seq<Planned>): Option<Sys> {
    if Driving(s) && s.frame == Idle && |Op(s).pending| > 0 && DistinctPlan(plan) then
      Some(s.(frame := Chaining(Op(s).pending[0].call, plan, 0, None)))
    else None
  }

  function PureCallHookNext(s: Sys): Option<Sys> {
    if Driving(s) && s.frame.Chaining? && s.frame.broken.None? && Op(s).active.None? && NextHook(s.frame, false)
    then Some(s.(frame := Advance(s.frame))) else None
  }

  ghost function BeginCallHookNext(s: Sys, result: EntryId): Option<Sys> {
    if Driving(s) && s.frame.Chaining? && s.frame.broken.None? && NextHook(s.frame, true) && FreshEntry(s.g, result) then
      Intend(s, BeginCallHook(s.g, Current(s), result, s.frame.call, s.frame.plan[s.frame.done].id))
    else None
  }

  function CommitCallHookNext(s: Sys, outcome: HookStatus, knowledge: Knowledge): Option<Sys> {
    if Driving(s) && s.frame.Chaining? && Op(s).active.Some? && Op(s).active.value.CallHookEffect? &&
       HookKnown(outcome, knowledge) then
      Adopt(s, CommitHook(s.g, Current(s), outcome, knowledge),
            if outcome == HookSucceeded then Advance(s.frame) else s.frame.(broken := Some(outcome)))
    else None
  }

  /** A failed chain settles its call with an error, an interrupted one as interrupted. */
  predicate OutcomeFollows(broken: Option<HookStatus>, result: ResultStatus) {
    && (broken == Some(HookInterrupted) ==> result == ResultInterrupted)
    && (broken == Some(HookFailed) ==> result == ResultError)
  }

  /** A result with no executor behind it; a hook of unknown outcome leaves its notice. */
  function SettleCallNext(s: Sys, result: ResultStatus, base: Text, knowledge: Knowledge, accepted: bool): Option<Sys> {
    if Driving(s) && s.frame.Chaining? && s.frame.done <= |s.frame.plan| && OutcomeFollows(s.frame.broken, result) &&
       knowledge != Unknown then
      Adopt(s, CommitImmediate(s.g, Current(s), s.frame.call,
                               Outcome(result, ResultText(knowledge, HookUnknown(s.g.log, Current(s), s.frame.call), base),
                                       knowledge, accepted, if accepted then Contributed(s.frame) else [])), Idle)
    else None
  }

  function BeginToolNext(s: Sys): Option<Sys> {
    if Driving(s) && s.frame.Chaining? && s.frame.broken.None? && s.frame.done == |s.frame.plan| then
      Intend(s, BeginTool(s.g, Current(s), s.frame.call, Contributed(s.frame)))
    else None
  }

  /** The callback of the committed intent receives action authority. */
  function InvocationOf(o: OpId, effect: Effect): Invocation {
    match effect
    case ConversationEffect(_, r, _, _) => Requested(o, r)
    case MaintenanceEffect(_, r, _) => Requested(o, r)
    case ToolEffect(_, c, _) => Executed(o, c)
    case CallHookEffect(_, c, h) => Ran(o, ForCall(c), h)
    case RequestHookEffect(_, r, h, _) => Ran(o, ForRequest(r), h)
  }

  function InvokeNext(s: Sys): Option<Sys> {
    if Driving(s) && s.frame != Lost && Op(s).active.Some? && !s.started then
      Some(s.(started := true, invoked := s.invoked + [InvocationOf(Current(s), Op(s).active.value)]))
    else None
  }

  /** An executor's outcome, or the cancellation that came before its start. */
  function CommitToolNext(s: Sys, result: ResultStatus, base: Text, knowledge: Knowledge): Option<Sys> {
    if Driving(s) && s.frame.Chaining? && Op(s).active.Some? && Op(s).active.value.ToolEffect? &&
       (!s.started ==> result == ResultInterrupted && knowledge == NotStarted) then
      Adopt(s.(reported := if s.started then s.reported + {Op(s).active.value.result} else s.reported),
            CommitExecuted(s.g, Current(s), s.frame.call, result, ResultText(knowledge, false, base), knowledge), Idle)
    else None
  }

  // ---- Everything else ----

  ghost function CompletionNext(s: Sys, entry: EntryId, text: Text): Option<Sys> {
    if FreshEntry(s.g, entry) then Some(s.(g := RecordCompletion(s.g, entry, text))) else None
  }

  function LifecycleNext(s: Sys, open: bool): Option<Sys> {
    if s.frame == Idle then Adopt(s, SetLifecycle(s.g, open), Idle) else None
  }

  /** Process loss: everything held in memory is gone. */
  function CrashNext(s: Sys): Option<Sys> {
    Some(s.(frame := Lost, facts := []))
  }

  ghost function RecoverNext(s: Sys, signal: EntryId, settlement: EntryId): Option<Sys> {
    if s.frame == Lost && Driving(s) && FreshEntry(s.g, signal) && FreshEntry(s.g, settlement) && signal != settlement then
      Some(s.(g := Settle(s.g, Current(s), RecoveryEnding(signal, settlement)), started := false))
    else None
  }

  function RestartNext(s: Sys): Option<Sys> {
    if s.frame == Lost && s.g.session.current.None? then Some(s.(frame := Idle)) else None
  }

  ghost function Next(s: Sys, step: Step): Option<Sys> {
    match step
    case AdmitMessageStep(o, entry, origin, text) => AdmitMessageNext(s, o, entry, origin, text)
    case AdmitCompactStep(o) => AdmitCompactNext(s, o)
    case OpenRound(r, plan) => OpenRoundNext(s, r, plan)
    case PureRequestHook => PureRequestHookNext(s)
    case StopRound => StopRoundNext(s)
    case BeginRequestHookStep(result) => BeginRequestHookNext(s, result)
    case CommitRequestHook(outcome, knowledge) => CommitRequestHookNext(s, outcome, knowledge)
    case OpenManual => OpenManualNext(s)
    case BeginMaintenanceStep(result, producer, m, committed) => BeginMaintenanceNext(s, result, producer, m, committed)
    case CommitMaintenance(usage) => CommitMaintenanceNext(s, usage)
    case CheckpointStep(id, messages, boundary, producer) => CheckpointNext(s, id, messages, boundary, producer)
    case ManualCheckpointStep(id, messages, boundary, producer, settlement, signal) =>
      ManualCheckpointNext(s, id, messages, boundary, producer, settlement, signal)
    case ManualNoneStep(producer, settlement, signal) => ManualNoneNext(s, producer, settlement, signal)
    case BeginModelStep(result, m) => BeginModelNext(s, result, m)
    case CommitModelStep(a, signal) => CommitModelNext(s, a, signal)
    case FinishModelStep(status, detail, a, usage, signal, settlement) =>
      FinishModelNext(s, status, detail, a, usage, signal, settlement)
    case FinishMaintenanceStep(status, detail, producer, signal, settlement) =>
      FinishMaintenanceNext(s, status, detail, producer, signal, settlement)
    case FinishQuietStep(status, detail, signal, settlement) => FinishQuietNext(s, status, detail, signal, settlement)
    case OpenChain(plan) => OpenChainNext(s, plan)
    case PureCallHook => PureCallHookNext(s)
    case BeginCallHookStep(result) => BeginCallHookNext(s, result)
    case CommitCallHook(outcome, knowledge) => CommitCallHookNext(s, outcome, knowledge)
    case SettleCallStep(result, text, knowledge, accepted) => SettleCallNext(s, result, text, knowledge, accepted)
    case BeginToolStep => BeginToolNext(s)
    case Invoke => InvokeNext(s)
    case CommitToolStep(result, text, knowledge) => CommitToolNext(s, result, text, knowledge)
    case CompletionStep(entry, text) => CompletionNext(s, entry, text)
    case LifecycleStep(open) => LifecycleNext(s, open)
    case Crash => CrashNext(s)
    case Recover(signal, settlement) => RecoverNext(s, signal, settlement)
    case Restart => RestartNext(s)
  }
}
