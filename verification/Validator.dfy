/** The invariant set every read of a Session verifies (harness/graph.go).

    `Accepted` is the verdict. The checks that compare sequences are stated for
    one entry against the log before it (`Fits`); the order-insensitive ones and
    the ones on registers are stated over the whole graph. */
module Validator {
  import opened Records

  // ---- Views of the log one Operation owns -------------------------------

  function CallsOf(e: Entry, o: OpId): seq<Pending> {
    if Owned(e, o) && e.body.Assistant? then
      seq(|e.body.calls|, k requires 0 <= k < |e.body.calls| => Pending(e.id, e.body.calls[k].id, e.body.calls[k].result))
    else []
  }

  /** The calls an Operation published, in publication order. */
  function Published(log: seq<Entry>, o: OpId): seq<Pending> {
    if |log| == 0 then [] else Published(log[..|log| - 1], o) + CallsOf(log[|log| - 1], o)
  }

  predicate AnswersCall(e: Entry, o: OpId, c: CallId) {
    Owned(e, o) && e.body.ToolResult? && e.body.answers == c
  }

  function ResultCount(log: seq<Entry>, o: OpId, c: CallId): nat {
    if |log| == 0 then 0
    else ResultCount(log[..|log| - 1], o, c) + if AnswersCall(log[|log| - 1], o, c) then 1 else 0
  }

  /** The calls of a list that no result of the Operation answers. */
  function Unresolved(calls: seq<Pending>, log: seq<Entry>, o: OpId): seq<Pending> {
    if |calls| == 0 then []
    else (if ResultCount(log, o, calls[0].call) == 0 then [calls[0]] else []) + Unresolved(calls[1..], log, o)
  }

  predicate IsSettlement(e: Entry, o: OpId) {
    Owned(e, o) && e.body.Settled?
  }

  function SettlementCount(log: seq<Entry>, o: OpId): nat {
    if |log| == 0 then 0
    else SettlementCount(log[..|log| - 1], o) + if IsSettlement(log[|log| - 1], o) then 1 else 0
  }

  predicate IsHookResult(e: Entry, o: OpId, b: Binding) {
    Owned(e, o) && e.body.HookResult? && e.body.binding == b
  }

  /** The hooks whose results an Operation committed under one binding, in order. */
  function HooksOf(log: seq<Entry>, o: OpId, b: Binding): seq<HookId> {
    if |log| == 0 then []
    else HooksOf(log[..|log| - 1], o, b) +
         if IsHookResult(log[|log| - 1], o, b) then [log[|log| - 1].body.hook] else []
  }

  /** The committed identities of a request's hook results, in order. */
  function HookEntriesOf(log: seq<Entry>, o: OpId, b: Binding): seq<EntryId> {
    if |log| == 0 then []
    else HookEntriesOf(log[..|log| - 1], o, b) +
         if IsHookResult(log[|log| - 1], o, b) then [log[|log| - 1].id] else []
  }

  function SucceededHooks(log: seq<Entry>, o: OpId, c: CallId): seq<HookId> {
    if |log| == 0 then []
    else SucceededHooks(log[..|log| - 1], o, c) +
         if IsHookResult(log[|log| - 1], o, ForCall(c)) && log[|log| - 1].body.outcome == HookSucceeded
         then [log[|log| - 1].body.hook] else []
  }

  /** The identities of a provenance list that name one of the results. */
  function Backed(ids: seq<HookId>, results: seq<HookId>): seq<HookId> {
    if |ids| == 0 then []
    else (if ids[0] in results then [ids[0]] else []) + Backed(ids[1..], results)
  }

  /** Every result occurs in the provenance, completely and in committed order;
      other identities stay informational. */
  predicate Reconciles(ids: seq<HookId>, results: seq<HookId>) {
    Backed(ids, results) == results
  }

  /** No hook of this binding failed or was interrupted. */
  ghost predicate ChainIntact(log: seq<Entry>, o: OpId, b: Binding) {
    forall i :: 0 <= i < |log| && IsHookResult(log[i], o, b) ==> log[i].body.outcome == HookSucceeded
  }

  ghost predicate Answered(log: seq<Entry>, o: OpId, r: RequestId) {
    exists i :: 0 <= i < |log| && Owned(log[i], o) && log[i].body.Assistant? && log[i].body.request == r
  }

  // ---- Evidence ----------------------------------------------------------

  /** A cut after position b separates no call from its result and hides no
      unfinished call. */
  ghost predicate SafeCut(log: seq<Entry>, b: nat) {
    forall i, k :: 0 <= i <= b && i < |log| && log[i].body.Assistant? && 0 <= k < |log[i].body.calls| ==>
                     ResultBy(log, log[i].body.calls[k].result, b)
  }

  ghost predicate ResultBy(log: seq<Entry>, id: EntryId, b: nat) {
    exists j :: 0 <= j <= b && j < |log| && log[j].id == id
  }

  /** The canonical references of an evidence value, resolved in the log before
      its carrier: the boundary projects, and it is the checkpoint itself or an
      entry that checkpoint does not cover. */
  ghost predicate RefsAt(log: seq<Entry>, checkpoint: Option<EntryId>, boundary: EntryId, b: nat) {
    && b < |log| && log[b].id == boundary && ConversationBearing(log[b].body)
    && (checkpoint.Some? ==> exists c :: CheckpointRefAt(log, checkpoint.value, b, c))
  }

  ghost predicate CheckpointRefAt(log: seq<Entry>, checkpoint: EntryId, b: nat, c: nat) {
    && b < |log| && c < |log| && log[c].id == checkpoint && log[c].body.Checkpoint?
    && (c == b || CoveredBelow(log, log[c].body.boundary, b))
  }

  ghost predicate CoveredBelow(log: seq<Entry>, id: EntryId, b: nat) {
    exists t :: 0 <= t < b && t < |log| && log[t].id == id
  }

  ghost predicate RefsResolve(log: seq<Entry>, checkpoint: Option<EntryId>, boundary: EntryId) {
    exists b :: RefsAt(log, checkpoint, boundary, b)
  }

  /** The request whose hook executions an entry's evidence is reconciled with. */
  function OrderKey(body: Body): Option<RequestId> {
    match body
    case HookResult(_, ForRequest(r), _, _, _) => Some(r)
    case Assistant(_, _, _, _, _, r, _) => Some(r)
    case Settled(s) => if s.maintenance && s.consumed.Some? then s.consumed else s.request
    case Checkpoint(_, _, facts, consumed, _) =>
      if consumed.Some? then consumed else if |facts| > 0 then Some(facts[0].request) else None
    case _ => None
  }

  function EvidenceOf(body: Body): Option<Evidence> {
    match body
    case HookResult(_, ForRequest(_), _, _, consumes) => consumes
    case Assistant(_, _, _, _, _, _, evidence) => Some(evidence)
    case Settled(s) => s.evidence
    case Checkpoint(_, _, _, _, evidence) => Some(evidence)
    case _ => None
  }

  /** The entry carries evidence of request r that names hook h. */
  predicate Names(e: Entry, o: OpId, r: RequestId, h: HookId) {
    Owned(e, o) && OrderKey(e.body) == Some(r) && EvidenceOf(e.body).Some? && h in EvidenceOf(e.body).value.hooks
  }

  function FactsOf(body: Body): seq<Fact> {
    match body
    case Checkpoint(_, _, facts, _, _) => facts
    case Settled(s) => s.facts
    case _ => []
  }

  ghost predicate ProducerUsed(log: seq<Entry>, o: OpId, r: RequestId) {
    exists i, k :: 0 <= i < |log| && Owned(log[i], o) && 0 <= k < |FactsOf(log[i].body)| &&
                   FactsOf(log[i].body)[k].request == r
  }

  predicate DistinctFacts(facts: seq<Fact>) {
    forall i, j :: 0 <= i < j < |facts| ==> facts[i].request != facts[j].request
  }

  // ---- One entry against the log before it -------------------------------

  /** An operation-owned entry's evidence resolves and reconciles. */
  ghost predicate EvidenceFits(log: seq<Entry>, e: Entry, o: OpId) {
    EvidenceOf(e.body).Some? ==>
      var evidence := EvidenceOf(e.body).value;
      && RefsResolve(log, evidence.checkpoint, evidence.boundary)
      && (OrderKey(e.body).Some? ==>
            Reconciles(evidence.hooks, HooksOf(log, o, ForRequest(OrderKey(e.body).value))))
  }

  ghost predicate CallHookFits(log: seq<Entry>, e: Entry, o: OpId)
    requires e.body.HookResult? && e.body.binding.ForCall?
  {
    exists p :: RunsAsFirstPending(log, o, e.body.binding.call, p)
  }

  /** The call is published, unanswered, and every earlier published call is answered. */
  ghost predicate RunsAsFirstPending(log: seq<Entry>, o: OpId, c: CallId, p: nat) {
    && p < |Published(log, o)| && Published(log, o)[p].call == c
    && !Committed(log, Published(log, o)[p].result)
    && forall q :: 0 <= q < p ==> Committed(log, Published(log, o)[q].result)
  }

  ghost predicate HookResultFits(log: seq<Entry>, e: Entry, o: OpId)
    requires e.body.HookResult?
  {
    && e.body.hook !in HooksOf(log, o, e.body.binding)
    && ChainIntact(log, o, e.body.binding)
    && match e.body.binding
       case ForCall(_) => CallHookFits(log, e, o)
       case ForRequest(r) =>
         && e.body.consumes.Some?
         && e.body.hook !in e.body.consumes.value.hooks
         && !Answered(log, o, r)
         && forall i :: 0 <= i < |log| ==> !Names(log[i], o, r, e.body.hook)
  }

  ghost predicate ToolResultFits(log: seq<Entry>, e: Entry, o: OpId)
    requires e.body.ToolResult?
  {
    && (e.body.accepted ==> Reconciles(e.body.hooks, SucceededHooks(log, o, e.body.answers)))
    && forall i :: 0 <= i < |log| && IsHookResult(log[i], o, ForCall(e.body.answers)) ==>
         && (log[i].body.outcome == HookInterrupted ==> e.body.result == ResultInterrupted)
         && (log[i].body.outcome == HookFailed ==> e.body.result == ResultInterrupted || e.body.result == ResultError)
  }

  /** A maintenance record of a message Operation names the conversation request it consumed. */
  predicate NamesConsumedRequest(e: Entry, kind: RequestKind) {
    kind == MessageKind ==>
      match e.body
      case Checkpoint(_, _, _, consumed, _) => consumed.Some?
      case Settled(s) => s.maintenance && s.evidence.Some? ==> s.consumed.Some?
      case _ => true
  }

  ghost predicate CheckpointFits(log: seq<Entry>, e: Entry)
    requires e.body.Checkpoint?
  {
    exists b :: 0 <= b < |log| && log[b].id == e.body.boundary && SafeCut(log, b)
  }

  ghost predicate OwnedFits(adm: map<OpId, Admission>, log: seq<Entry>, e: Entry, o: OpId) {
    && o in adm
    && EvidenceFits(log, e, o)
    && NamesConsumedRequest(e, adm[o].kind)
    && DistinctFacts(FactsOf(e.body))
    && (forall k :: 0 <= k < |FactsOf(e.body)| ==> !ProducerUsed(log, o, FactsOf(e.body)[k].request))
    && (e.body.Input? ==> adm[o] == Admission(MessageKind, Some(e.id)))
    && (e.body.Assistant? ==> !Answered(log, o, e.body.request) && ChainIntact(log, o, ForRequest(e.body.request)))
    && (e.body.HookResult? ==> HookResultFits(log, e, o))
    && (e.body.ToolResult? ==> ToolResultFits(log, e, o))
    && (e.body.Signal? ==> e.body.related.Some? && e.body.related.value in adm)
  }

  predicate IsCompletion(e: Entry) {
    e.body.Signal? && e.body.kind == CompletionSignal
  }

  /** A copied fork-prefix entry precedes every owned entry; a background
      completion signal is the only other operationless entry. */
  ghost predicate CopiedFits(fork: bool, log: seq<Entry>, e: Entry) {
    && (IsCompletion(e) || (fork && forall i :: 0 <= i < |log| ==> log[i].owner.None?))
    && !e.body.HookResult? && !e.body.Settled?
    && (EvidenceOf(e.body).Some? ==>
          RefsResolve(log, EvidenceOf(e.body).value.checkpoint, EvidenceOf(e.body).value.boundary))
  }

  ghost predicate Fits(fork: bool, adm: map<OpId, Admission>, log: seq<Entry>, e: Entry) {
    && !Committed(log, e.id)
    && (e.body.Checkpoint? ==> CheckpointFits(log, e))
    && match e.owner
       case Some(o) => OwnedFits(adm, log, e, o)
       case None => CopiedFits(fork, log, e)
  }

  ghost predicate LogFits(fork: bool, adm: map<OpId, Admission>, log: seq<Entry>) {
    forall i :: 0 <= i < |log| ==> Fits(fork, adm, log[..i], log[i])
  }

  // ---- Order-insensitive checks on the log --------------------------------

  predicate IsReservation(log: seq<Entry>, i: int, k: int) {
    0 <= i < |log| && log[i].body.Assistant? && 0 <= k < |log[i].body.calls|
  }

  function Reserved(log: seq<Entry>, i: int, k: int): EntryId
    requires IsReservation(log, i, k)
  {
    log[i].body.calls[k].result
  }

  /** Entry e is the terminal result of call k of assistant a. */
  predicate Settles(e: Entry, a: Entry, k: int)
    requires a.body.Assistant? && 0 <= k < |a.body.calls|
  {
    && e.owner == a.owner && e.body.ToolResult?
    && e.body.answers == a.body.calls[k].id && e.body.assistant == a.id
  }

  ghost predicate ReservationsUnique(log: seq<Entry>) {
    forall i, k, j, l ::
      IsReservation(log, i, k) && IsReservation(log, j, l) && Reserved(log, i, k) == Reserved(log, j, l) ==>
        i == j && k == l
  }

  ghost predicate ReservationsSettle(log: seq<Entry>) {
    forall i, k, j :: IsReservation(log, i, k) && 0 <= j < |log| && log[j].id == Reserved(log, i, k) ==>
                        Settles(log[j], log[i], k)
  }

  /** A copied call's result lies in the copied prefix. */
  ghost predicate CopiedCallsResolved(log: seq<Entry>) {
    forall i, k :: IsReservation(log, i, k) && log[i].owner.None? ==> Committed(log, Reserved(log, i, k))
  }

  /** A result answers a published call, from its publisher, under its reservation. */
  ghost predicate ResultsAnswer(log: seq<Entry>) {
    forall j :: 0 <= j < |log| && log[j].body.ToolResult? ==> ResultAnswers(log, log[j])
  }

  ghost predicate ResultAnswers(log: seq<Entry>, e: Entry)
    requires e.body.ToolResult?
  {
    exists i, k :: IsReservation(log, i, k) && Reserved(log, i, k) == e.id && Settles(e, log[i], k)
  }

  /** An assistant entry repeats no call identity, and an Operation none across its entries. */
  ghost predicate CallsUnique(log: seq<Entry>) {
    forall i, k, j, l ::
      && IsReservation(log, i, k) && IsReservation(log, j, l) && log[i].body.calls[k].id == log[j].body.calls[l].id
      && (i == j || (log[i].owner.Some? && log[i].owner == log[j].owner)) ==>
        i == j && k == l
  }

  ghost predicate LogConsistent(log: seq<Entry>) {
    && ReservationsUnique(log)
    && ReservationsSettle(log)
    && CopiedCallsResolved(log)
    && ResultsAnswer(log)
    && CallsUnique(log)
  }

  // ---- Registers -----------------------------------------------------------

  ghost predicate SessionAgrees(g: Graph) {
    && (forall o :: o in g.ops && g.ops[o].status == Running ==> g.session.current == Some(o) && g.session.open)
    && (g.session.current.Some? ==>
          g.session.current.value in g.ops && g.ops[g.session.current.value].status == Running)
    && (g.session.checkpoint.Some? ==>
          exists i :: 0 <= i < |g.log| && g.log[i].id == g.session.checkpoint.value && g.log[i].body.Checkpoint?)
  }

  ghost predicate AdmissionAgrees(log: seq<Entry>, o: OpId, a: Admission) {
    match a.kind
    case CompactKind => a.admitted.None?
    case MessageKind =>
      a.admitted.Some? && exists i :: 0 <= i < |log| && log[i].id == a.admitted.value && log[i].body.Input? && Owned(log[i], o)
  }

  /** A reserved identity is free: no call reserves it and no entry carries it. */
  ghost predicate IdentityFree(log: seq<Entry>, id: EntryId) {
    !Committed(log, id) && forall i, k :: IsReservation(log, i, k) ==> Reserved(log, i, k) != id
  }

  /** The closed shape of a register's effect, pending and request members. */
  predicate EffectShape(op: Operation, effect: Effect) {
    match effect
    case ToolEffect(result, call, _) => |op.pending| > 0 && op.pending[0].call == call && op.pending[0].result == result
    case CallHookEffect(_, call, _) => |op.pending| > 0 && op.pending[0].call == call
    case ConversationEffect(_, r, _, ev) => RequestPublished(op, r, ev)
    case RequestHookEffect(_, r, _, ev) => RequestPublished(op, r, ev)
    case MaintenanceEffect(_, _, _) => true
  }

  predicate RequestPublished(op: Operation, r: RequestId, ev: Evidence) {
    op.request.Some? && op.request.value.id == r &&
    op.request.value.checkpoint == ev.checkpoint && op.request.value.boundary == ev.boundary
  }

  /** An active request-bound effect addresses an open request whose chain holds. */
  ghost predicate RequestOpen(log: seq<Entry>, o: OpId, r: RequestId) {
    !Answered(log, o, r) && ChainIntact(log, o, ForRequest(r))
  }

  ghost predicate ActiveEvidence(log: seq<Entry>, o: OpId, r: RequestId, ev: Evidence) {
    RefsResolve(log, ev.checkpoint, ev.boundary) && Reconciles(ev.hooks, HooksOf(log, o, ForRequest(r)))
  }

  ghost predicate EffectAgrees(log: seq<Entry>, o: OpId, op: Operation, effect: Effect) {
    && EffectShape(op, effect)
    && match effect
       case ConversationEffect(result, r, _, ev) =>
         IdentityFree(log, result) && RequestOpen(log, o, r) && ActiveEvidence(log, o, r, ev)
       case MaintenanceEffect(result, r, _) =>
         IdentityFree(log, result) && RequestOpen(log, o, r)
       case RequestHookEffect(result, r, hook, ev) =>
         && IdentityFree(log, result) && RequestOpen(log, o, r) && ActiveEvidence(log, o, r, ev)
         && hook !in HooksOf(log, o, ForRequest(r)) && hook !in ev.hooks
       case CallHookEffect(result, call, hook) =>
         && IdentityFree(log, result) && ChainIntact(log, o, ForCall(call)) && hook !in HooksOf(log, o, ForCall(call))
       case ToolEffect(_, call, hooks) =>
         ChainIntact(log, o, ForCall(call)) && Reconciles(hooks, SucceededHooks(log, o, call))
  }

  ghost predicate RequestAgrees(session: Session, log: seq<Entry>, o: OpId, request: RunningRequest) {
    && session.checkpoint == request.checkpoint
    && RefsResolve(log, request.checkpoint, request.boundary)
    && request.hookResults == HookEntriesOf(log, o, ForRequest(request.id))
  }

  ghost predicate RunningAgrees(session: Session, log: seq<Entry>, o: OpId, op: Operation) {
    && op.terminal.None?
    && op.pending == Unresolved(Published(log, o), log, o)
    && SettlementCount(log, o) == 0
    && (op.active.Some? ==> EffectAgrees(log, o, op, op.active.value))
    && (op.request.Some? ==> RequestAgrees(session, log, o, op.request.value))
  }

  ghost predicate TerminalAgrees(log: seq<Entry>, o: OpId, op: Operation) {
    && op.active.None? && op.request.None? && op.pending == []
    && (forall p :: p in Published(log, o) ==> ResultCount(log, o, p.call) == 1)
    && SettlementCount(log, o) == 1
    && op.terminal.Some?
    && exists i :: 0 <= i < |log| && log[i].id == op.terminal.value.settlement && IsSettlement(log[i], o) &&
                   log[i].body.settlement.status == op.status && log[i].body.settlement.detail == op.terminal.value.detail
  }

  ghost predicate OperationAgrees(g: Graph, o: OpId)
    requires o in g.ops
  {
    && AdmissionAgrees(g.log, o, g.ops[o].admission)
    && if g.ops[o].status == Running then RunningAgrees(g.session, g.log, o, g.ops[o])
       else TerminalAgrees(g.log, o, g.ops[o])
  }

  // ---- Usage ---------------------------------------------------------------

  function AddUsage(a: Usage, b: Usage): Usage {
    Usage(a.input + b.input, a.cached + b.cached, a.output + b.output)
  }

  function Charge(t: Totals, m: ModelRef, u: Usage): Totals {
    t[m := if m in t then AddUsage(t[m], u) else u]
  }

  function ChargeFacts(t: Totals, facts: seq<Fact>): Totals {
    if |facts| == 0 then t
    else
      var rest := ChargeFacts(t, facts[..|facts| - 1]);
      var last := facts[|facts| - 1];
      if last.usage.Some? then Charge(rest, last.model, last.usage.value) else rest
  }

  /** The usage one entry produced, added to running totals. */
  function ChargeEntry(t: Totals, body: Body): Totals {
    match body
    case Assistant(_, _, source, Some(u), _, _, _) => Charge(t, source, u)
    case Settled(s) =>
      ChargeFacts(if s.usage.Some? && s.producer.Some? then Charge(t, s.producer.value, s.usage.value) else t, s.facts)
    case Checkpoint(_, _, facts, _, _) => ChargeFacts(t, facts)
    case _ => t
  }

  function OperationUsage(log: seq<Entry>, o: OpId): Totals {
    if |log| == 0 then map[]
    else
      var rest := OperationUsage(log[..|log| - 1], o);
      if Owned(log[|log| - 1], o) then ChargeEntry(rest, log[|log| - 1].body) else rest
  }

  function SessionUsage(log: seq<Entry>): Totals {
    if |log| == 0 then map[] else ChargeEntry(SessionUsage(log[..|log| - 1]), log[|log| - 1].body)
  }

  ghost predicate UsageAgrees(g: Graph) {
    && g.session.usage == SessionUsage(g.log)
    && forall o :: o in g.ops ==> g.ops[o].usage == OperationUsage(g.log, o)
  }

  // ---- The verdict ---------------------------------------------------------

  ghost predicate LogAccepted(fork: bool, adm: map<OpId, Admission>, log: seq<Entry>) {
    LogFits(fork, adm, log) && LogConsistent(log)
  }

  ghost predicate OperationsAgree(g: Graph) {
    forall o :: o in g.ops ==> OperationAgrees(g, o)
  }

  ghost predicate Accepted(g: Graph) {
    && LogAccepted(g.session.fork, Admissions(g.ops), g.log)
    && SessionAgrees(g)
    && OperationsAgree(g)
    && UsageAgrees(g)
  }
}
