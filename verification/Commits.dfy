/** Each durable transaction, given what its driver supplies, keeps the Session accepted. */
module Commits {
  import opened Records
  import opened Validator
  import opened Transactions
  import opened LogLemmas
  import opened LogFacts
  import opened Growth
  import opened Appends
  import opened Settling

  // ---- Admission ---------------------------------------------------------------

  lemma {:induction false} NoEntries(log: seq<Entry>, o: OpId)
    requires forall i :: 0 <= i < |log| ==> !Owned(log[i], o)
    ensures Published(log, o) == [] && SettlementCount(log, o) == 0 && OperationUsage(log, o) == map[]
  {
    if |log| > 0 {
      NoEntries(log[..|log| - 1], o);
    }
  }

  /** Every owner is an admitted Operation. */
  lemma OwnersAdmitted(fork: bool, adm: map<OpId, Admission>, log: seq<Entry>, o: OpId)
    requires LogFits(fork, adm, log) && o !in adm
    ensures forall i :: 0 <= i < |log| ==> !Owned(log[i], o)
  {
    forall i | 0 <= i < |log| ensures !Owned(log[i], o) {
      assert Fits(fork, adm, log[..i], log[i]);
    }
  }

  lemma AdmittedLog(g: Graph, o: OpId, a: Admission)
    requires Accepted(g) && o !in g.ops
    ensures LogAccepted(g.session.fork, Admissions(g.ops)[o := a], g.log)
    ensures Published(g.log, o) == [] && SettlementCount(g.log, o) == 0 && OperationUsage(g.log, o) == map[]
  {
    LogFitsAdmit(g.session.fork, Admissions(g.ops), Admissions(g.ops)[o := a], g.log);
    OwnersAdmitted(g.session.fork, Admissions(g.ops), g.log, o);
    NoEntries(g.log, o);
  }

  lemma AdmissionsAdd(ops: map<OpId, Operation>, o: OpId, op: Operation)
    requires o !in ops
    ensures Admissions(ops[o := op]) == Admissions(ops)[o := op.admission]
  {
  }

  lemma NoneRunning(g: Graph, x: OpId)
    requires Accepted(g) && g.session.current.None? && x in g.ops
    ensures g.ops[x].status != Running && OperationAgrees(g, x)
  {
  }

  lemma AdmitMessageLog(g: Graph, o: OpId, id: EntryId, origin: Origin, text: Text)
    requires Accepted(g) && o !in g.ops && IdentityFree(g.log, id)
    ensures LogAccepted(g.session.fork, Admissions(g.ops)[o := Admission(MessageKind, Some(id))],
                        g.log + [Entry(id, Some(o), Input(origin, text))])
  {
    var a := Admission(MessageKind, Some(id));
    AdmittedLog(g, o, a);
    Append(g.session.fork, Admissions(g.ops)[o := a], g.log, Entry(id, Some(o), Input(origin, text)));
  }

  /** The new register agrees with the log its input entry extends. */
  lemma AdmittedRegister(g: Graph, o: OpId, e: Entry, a: Admission, g': Graph)
    requires Accepted(g) && o !in g.ops && Owned(e, o) && e.body.Input? && a == Admission(MessageKind, Some(e.id))
    requires g'.log == g.log + [e] && o in g'.ops && g'.ops[o] == NewOperation(a)
    ensures OperationAgrees(g', o) && g'.ops[o].usage == OperationUsage(g'.log, o)
    ensures SessionUsage(g'.log) == g.session.usage
  {
    AdmittedLog(g, o, a);
    Snoc(g.log, e, o);
    SnocNeutral(g.log, e, o);
    assert g'.log[|g.log|] == e;
  }

  lemma OthersOnAdmission(g: Graph, o: OpId, e: Entry, g': Graph)
    requires Accepted(g) && g.session.current.None? && o !in g.ops && Owned(e, o) && g'.log == g.log + [e]
    requires forall x :: x in g.ops ==> x in g'.ops && g'.ops[x] == g.ops[x]
    ensures forall x :: x in g.ops ==> OperationAgrees(g', x) && g'.ops[x].usage == OperationUsage(g'.log, x)
  {
    hide LogFits, LogConsistent, SessionAgrees;
    forall x | x in g.ops ensures OperationAgrees(g', x) && g'.ops[x].usage == OperationUsage(g'.log, x) {
      NoneRunning(g, x);
      OtherOperation(g, g', [e], o, x);
    }
  }

  lemma AdmitMessageAccepted(g: Graph, o: OpId, id: EntryId, origin: Origin, text: Text)
    requires Accepted(g) && IdentityFree(g.log, id) && CanAdmit(g, o)
    ensures Accepted(AdmitMessage(g, o, id, origin, text).value)
  {
    var g' := AdmitMessage(g, o, id, origin, text).value;
    var a := Admission(MessageKind, Some(id));
    var e := Entry(id, Some(o), Input(origin, text));
    AdmitMessageLog(g, o, id, origin, text);
    AdmissionsAdd(g.ops, o, NewOperation(a));
    AdmittedRegister(g, o, e, a, g');
    OthersOnAdmission(g, o, e, g');
    CheckpointNamed(g);
    NamesCheckpointGrows(g.session, g'.session, g.log, [e]);
    AdmissionSession(g, o, g');
  }

  lemma AdmissionSession(g: Graph, o: OpId, g': Graph)
    requires Accepted(g) && CanAdmit(g, o) && g'.session == g.session.(current := Some(o))
    requires o in g'.ops && g'.ops[o].status == Running && g'.ops == g.ops[o := g'.ops[o]]
    requires NamesCheckpoint(g'.session, g'.log)
    ensures SessionAgrees(g')
  {
    forall x | x in g'.ops && g'.ops[x].status == Running ensures x == o {
      if x != o {
        NoneRunning(g, x);
      }
    }
  }

  lemma AdmitCompactAccepted(g: Graph, o: OpId)
    requires Accepted(g) && CanAdmit(g, o)
    ensures Accepted(AdmitCompact(g, o).value)
  {
    var g' := AdmitCompact(g, o).value;
    var a := Admission(CompactKind, None);
    AdmissionsAdd(g.ops, o, NewOperation(a));
    AdmittedLog(g, o, a);
    forall x | x in g.ops ensures OperationAgrees(g', x) && g'.ops[x].usage == OperationUsage(g'.log, x) {
      NoneRunning(g, x);
    }
  }

  // ---- Registers only --------------------------------------------------------------

  lemma BeginAccepted(g: Graph, o: OpId, effect: Effect, request: Option<RunningRequest>)
    requires Accepted(g) && IsQuiet(g, o)
    requires EffectAgrees(g.log, o, g.ops[o].(active := Some(effect), request := request), effect)
    requires request.Some? ==> RequestAgrees(g.session, g.log, o, request.value)
    ensures Accepted(WithOp(g, o, g.ops[o].(active := Some(effect), request := request)))
  {
    OnlyRunning(g, o);
    RegisterAccepted(g, o, g.ops[o].(active := Some(effect), request := request));
  }

  lemma MaintenanceResultAccepted(g: Graph, o: OpId)
    requires Accepted(g) && CommitMaintenanceResult(g, o).Some?
    ensures Accepted(CommitMaintenanceResult(g, o).value)
  {
    OnlyRunning(g, o);
    RegisterAccepted(g, o, g.ops[o].(active := None, unreportedMaintenance := true));
  }

  lemma LifecycleAccepted(g: Graph, open: bool)
    requires Accepted(g) && SetLifecycle(g, open).Some?
    ensures Accepted(SetLifecycle(g, open).value)
  {
    var g' := SetLifecycle(g, open).value;
    forall x | x in g.ops ensures OperationAgrees(g', x) {
      NoneRunning(g, x);
    }
  }

  // ---- Results ------------------------------------------------------------------------

  /** A running register keeps its request's references through an entry that runs no request hook. */
  lemma RequestGrows(session: Session, log: seq<Entry>, e: Entry, o: OpId, request: RunningRequest)
    requires RequestAgrees(session, log, o, request) && !IsHookResult(e, o, ForRequest(request.id))
    ensures RequestAgrees(session, log + [e], o, request)
  {
    SnocHooks(log, e, o, ForRequest(request.id));
    RefsGrow(log, e, request.checkpoint, request.boundary);
  }

  lemma SettlesNothing(log: seq<Entry>, e: Entry, o: OpId)
    requires !e.body.Settled?
    ensures SettlementCount(log + [e], o) == SettlementCount(log, o)
  {
    Snoc(log, e, o);
  }

  lemma AssistantRegister(session: Session, log: seq<Entry>, o: OpId, op: Operation, a: Produced, op': Operation)
    requires LogConsistent(log) && RunningAgrees(session, log, o, op) && ProducedFits(log, o, op, a)
    requires op'.active.None? && op'.terminal == op.terminal
    requires op'.pending == op.pending + CallsPending(o, Some(a))
    requires op'.request.Some? ==> op'.request == op.request
    ensures RunningAgrees(session, log + [AssistantEntry(o, a)], o, op')
  {
    var e := AssistantEntry(o, a);
    UnresolvedPublish(log, e, o);
    SettlesNothing(log, e, o);
    if op'.request.Some? {
      RequestGrows(session, log, e, o, op.request.value);
    }
  }

  /** What a running model result may bring. */
  ghost predicate ModelResultFits(g: Graph, o: OpId, a: Option<Produced>, signal: Option<EntryId>)
    requires o in g.ops
  {
    && (a.Some? ==> ProducedFits(g.log, o, g.ops[o], a.value))
    && (signal.Some? ==> FreshAside(g.log, g.ops[o], a, signal.value))
  }

  function ModelResultRegister(op: Operation, o: OpId, a: Option<Produced>): Operation {
    var pending := op.pending + CallsPending(o, a);
    op.(active := None, usage := ChargeProduced(op.usage, a), pending := pending,
        request := if pending == [] then None else op.request)
  }

  /** After the produced entry: the log is accepted and the register already agrees with it. */
  lemma ProducedAccepted(g: Graph, o: OpId, a: Option<Produced>, log': seq<Entry>)
    requires Accepted(g) && IsRunning(g, o) && g.ops[o].active.Some? && g.ops[o].active.value.ConversationEffect?
    requires a.Some? ==> ProducedFits(g.log, o, g.ops[o], a.value)
    requires log' == g.log + AssistantEntries(o, a)
    ensures LogAccepted(g.session.fork, Admissions(g.ops), log')
    ensures RunningAgrees(g.session, log', o, ModelResultRegister(g.ops[o], o, a))
    ensures OperationUsage(log', o) == ChargeProduced(g.ops[o].usage, a)
    ensures SessionUsage(log') == ChargeProduced(g.session.usage, a)
  {
    hide LogFits, LogConsistent, OperationsAgree, SessionAgrees, RequestAgrees, TerminalAgrees, Reconciles, RefsResolve, FreshCalls;
    OnlyRunning(g, o);
    if a.Some? {
      assert EffectAgrees(g.log, o, g.ops[o], g.ops[o].active.value);
      AppendAssistant(g.session.fork, Admissions(g.ops), g.log, o, a.value);
      AssistantRegister(g.session, g.log, o, g.ops[o], a.value, ModelResultRegister(g.ops[o], o, a));
      Snoc(g.log, AssistantEntry(o, a.value), o);
    } else {
      assert log' == g.log;
      assert g.ops[o].pending + CallsPending(o, a) == g.ops[o].pending;
    }
  }

  lemma ContinuationAccepted(fork: bool, adm: map<OpId, Admission>, session: Session, log: seq<Entry>, o: OpId, op: Operation,
                             id: EntryId)
    requires LogAccepted(fork, adm, log) && o in adm && RunningAgrees(session, log, o, op) && op.active.None?
    requires IdentityFree(log, id)
    ensures var log' := log + [SignalEntry(id, o, ContinuationSignal)];
            && LogAccepted(fork, adm, log') && RunningAgrees(session, log', o, op)
            && OperationUsage(log', o) == OperationUsage(log, o) && SessionUsage(log') == SessionUsage(log)
  {
    AppendSignal(fork, adm, log, o, id, ContinuationSignal);
    QuietGrowsNeutral(session, log, SignalEntry(id, o, ContinuationSignal), o, op);
    Snoc(log, SignalEntry(id, o, ContinuationSignal), o);
  }

  function ModelResultEntries(o: OpId, a: Option<Produced>, signal: Option<EntryId>): seq<Entry> {
    AssistantEntries(o, a) + if signal.Some? then [SignalEntry(signal.value, o, ContinuationSignal)] else []
  }

  lemma ModelResultLog(g: Graph, o: OpId, a: Option<Produced>, signal: Option<EntryId>, produced: seq<Entry>, log': seq<Entry>)
    requires Accepted(g) && IsRunning(g, o) && g.ops[o].active.Some? && g.ops[o].active.value.ConversationEffect?
    requires ModelResultFits(g, o, a, signal)
    requires produced == g.log + AssistantEntries(o, a) && log' == g.log + ModelResultEntries(o, a, signal)
    ensures LogAccepted(g.session.fork, Admissions(g.ops), log')
    ensures RunningAgrees(g.session, log', o, ModelResultRegister(g.ops[o], o, a))
    ensures OperationUsage(log', o) == ChargeProduced(g.ops[o].usage, a)
    ensures SessionUsage(log') == ChargeProduced(g.session.usage, a)
  {
    hide LogFits, LogConsistent, OperationsAgree, EffectAgrees;
    ProducedAccepted(g, o, a, produced);
    if signal.Some? {
      ProducedKeepsFree(g, o, a, signal.value);
      assert log' == produced + [SignalEntry(signal.value, o, ContinuationSignal)];
      ContinuationAccepted(g.session.fork, Admissions(g.ops), g.session, produced, o, ModelResultRegister(g.ops[o], o, a),
                           signal.value);
    } else {
      assert log' == produced;
    }
  }

  lemma ModelResultAccepted(g: Graph, o: OpId, a: Option<Produced>, signal: Option<EntryId>)
    requires Accepted(g) && CommitModelResult(g, o, a, signal).Some? && ModelResultFits(g, o, a, signal)
    ensures Accepted(CommitModelResult(g, o, a, signal).value)
  {
    hide Accepted, RunningAgrees, LogAccepted, ModelResultFits, OperationUsage, SessionUsage;
    var g' := CommitModelResult(g, o, a, signal).value;
    var es := ModelResultEntries(o, a, signal);
    assert g'.log == g.log + es;
    ModelResultLog(g, o, a, signal, g.log + AssistantEntries(o, a), g'.log);
    assert g'.ops[o] == ModelResultRegister(g.ops[o], o, a);
    SameSession(g.session, g'.session, g'.log, o, g'.ops[o]);
    Committing(g, o, es, g');
  }

  /** A transaction that keeps the Operation running and the checkpoint in place. */
  lemma Committing(g: Graph, o: OpId, es: seq<Entry>, g': Graph)
    requires Accepted(g) && IsRunning(g, o) && AllOwned(es, o)
    requires o in g'.ops && g'.ops == g.ops[o := g'.ops[o]] && g'.log == g.log + es
    requires g'.ops[o].admission == g.ops[o].admission && g'.ops[o].status == Running
    requires g'.session == g.session.(usage := g'.session.usage)
    requires LogAccepted(g.session.fork, Admissions(g.ops), g'.log)
    requires g'.ops[o].usage == OperationUsage(g'.log, o) && g'.session.usage == SessionUsage(g'.log)
    requires RunningAgrees(g'.session, g'.log, o, g'.ops[o])
    ensures Accepted(g')
  {
    OnlyRunning(g, o);
    CheckpointNamed(g);
    NamesCheckpointGrows(g.session, g'.session, g.log, es);
    TransactionAccepted(g, o, es, g');
  }

  lemma ProducedKeepsFree(g: Graph, o: OpId, a: Option<Produced>, id: EntryId)
    requires o in g.ops && (a.Some? ==> ProducedFits(g.log, o, g.ops[o], a.value)) && FreshAside(g.log, g.ops[o], a, id)
    ensures IdentityFree(g.log + AssistantEntries(o, a), id)
  {
    if a.Some? {
      IdentityGrows(g.log, AssistantEntry(o, a.value), id);
    } else {
      assert g.log + AssistantEntries(o, a) == g.log;
    }
  }

  lemma SameSession(session: Session, session': Session, log: seq<Entry>, o: OpId, op: Operation)
    requires RunningAgrees(session, log, o, op) && session'.checkpoint == session.checkpoint
    ensures RunningAgrees(session', log, o, op)
  {
  }

  /** A settled call leaves a quiet register that agrees. */
  lemma ResultRegister(session: Session, log: seq<Entry>, o: OpId, op: Operation, i: int, e: Entry)
    requires LogConsistent(log) && RunningAgrees(session, log, o, op) && 0 <= i < |op.pending|
    requires e.body.ToolResult? && Owned(e, o) && e.body.answers == op.pending[i].call
    ensures RunningAgrees(session, log + [e], o, AfterToolResult(op, i))
  {
    UnresolvedSettle(log, e, o, i);
    SettlesNothing(log, e, o);
    if op.request.Some? {
      RequestGrows(session, log, e, o, op.request.value);
    }
  }

  lemma ResultAccepted(g: Graph, o: OpId, i: int, out: Outcome)
    requires Accepted(g) && IsRunning(g, o) && 0 <= i < |g.ops[o].pending|
    requires OutcomeFits(g.log, o, g.ops[o].pending[i].call, out)
    ensures Accepted(Graph(g.session, g.ops[o := AfterToolResult(g.ops[o], i)],
                           g.log + [ToolResultEntry(o, g.ops[o].pending[i], out)]))
  {
    var op := g.ops[o];
    var e := ToolResultEntry(o, op.pending[i], out);
    OnlyRunning(g, o);
    assert op.pending[i] in op.pending;
    AppendResult(g.session.fork, Admissions(g.ops), g.log, o, op.pending[i], out);
    ResultRegister(g.session, g.log, o, op, i, e);
    Snoc(g.log, e, o);
    Committing(g, o, [e], Graph(g.session, g.ops[o := AfterToolResult(op, i)], g.log + [e]));
  }

  function HookRegister(op: Operation): Operation
    requires op.active.Some?
  {
    op.(active := None,
        request := if op.active.value.RequestHookEffect? && op.request.Some?
                   then Some(op.request.value.(hookResults := op.request.value.hookResults + [op.active.value.result]))
                   else op.request)
  }

  lemma HookRegisterAgrees(session: Session, log: seq<Entry>, o: OpId, op: Operation, outcome: HookStatus, knowledge: Knowledge)
    requires RunningAgrees(session, log, o, op) && op.active.Some? && IsHookEffect(op.active.value)
    ensures RunningAgrees(session, log + [HookEntry(o, op.active.value, outcome, knowledge)], o, HookRegister(op))
  {
    var e := HookEntry(o, op.active.value, outcome, knowledge);
    UnresolvedHook(log, e, o);
    SettlesNothing(log, e, o);
    if op.request.Some? {
      SnocHooks(log, e, o, ForRequest(op.request.value.id));
      RefsGrow(log, e, op.request.value.checkpoint, op.request.value.boundary);
    }
  }

  lemma HookAccepted(g: Graph, o: OpId, outcome: HookStatus, knowledge: Knowledge)
    requires Accepted(g) && CommitHook(g, o, outcome, knowledge).Some?
    requires Unnamed(g.log, o, g.ops[o].active.value)
    ensures Accepted(CommitHook(g, o, outcome, knowledge).value)
  {
    hide LogFits, LogConsistent, OperationsAgree, EffectAgrees;
    var op := g.ops[o];
    var e := HookEntry(o, op.active.value, outcome, knowledge);
    var g' := CommitHook(g, o, outcome, knowledge).value;
    OnlyRunning(g, o);
    AppendHook(g.session.fork, Admissions(g.ops), g.log, o, op, outcome, knowledge);
    HookRegisterAgrees(g.session, g.log, o, op, outcome, knowledge);
    Snoc(g.log, e, o);
    assert g'.ops[o] == HookRegister(op);
    Committing(g, o, [e], g');
  }

  // ---- Checkpoint ------------------------------------------------------------------------

  ghost predicate BoundarySafe(log: seq<Entry>, boundary: EntryId) {
    exists b: nat :: b < |log| && log[b].id == boundary && SafeCut(log, b)
  }

  /** What one validated checkpoint publication brings. */
  ghost predicate CheckpointPlanFits(g: Graph, o: OpId, plan: Plan, carrier: Carrier)
    requires o in g.ops
  {
    var body := CheckpointEntry(o, plan, carrier).body;
    && g.ops[o].active.None?
    && IdentityFree(g.log, plan.id)
    && BoundarySafe(g.log, plan.boundary)
    && FactsFit(g.log, o, carrier.facts)
    && RefsResolve(g.log, body.evidence.checkpoint, body.evidence.boundary)
    && (OrderKey(body).Some? ==> Reconciles(body.evidence.hooks, HooksOf(g.log, o, ForRequest(OrderKey(body).value))))
    && (g.ops[o].admission.kind == MessageKind ==> carrier.source.Some?)
    && (g.ops[o].request.None? && carrier.source.Some? ==> HookEntriesOf(g.log, o, ForRequest(carrier.source.value)) == [])
  }

  lemma CheckpointLog(g: Graph, o: OpId, plan: Plan, carrier: Carrier)
    requires Accepted(g) && IsRunning(g, o) && CheckpointPlanFits(g, o, plan, carrier)
    ensures LogAccepted(g.session.fork, Admissions(g.ops), g.log + [CheckpointEntry(o, plan, carrier)])
  {
    Append(g.session.fork, Admissions(g.ops), g.log, CheckpointEntry(o, plan, carrier));
  }

  lemma {:induction false} NewestMessageIs(log: seq<Entry>, cut: int) returns (b: int)
    requires -1 <= cut && NewestMessage(log, cut).Some?
    ensures cut < b < |log| && log[b].id == NewestMessage(log, cut).value && MessageBearing(log[b].body)
    ensures forall i :: b < i < |log| ==> !MessageBearing(log[i].body)
  {
    if MessageBearing(log[|log| - 1].body) {
      b := |log| - 1;
    } else {
      b := NewestMessageIs(log[..|log| - 1], cut);
    }
  }

  /** The rebuilt pair names the projection a request after the checkpoint consumes. */
  lemma RebuiltResolves(log: seq<Entry>, e: Entry)
    requires e.body.Checkpoint? && BoundarySafe(log, e.body.boundary)
    ensures RefsResolve(log + [e], Some(e.id), RebuiltBoundary(log, e.body.boundary, e.id))
  {
    var log' := log + [e];
    var c: nat := |log|;
    assert log'[c] == e;
    var cut := PositionOf(log, e.body.boundary);
    assert cut >= 0;
    var newest := NewestMessage(log, cut);
    if newest.Some? {
      var b := NewestMessageIs(log, cut);
      assert log'[b] == log[b] && log'[cut] == log[cut];
      assert CoveredBelow(log', e.body.boundary, b);
      assert CheckpointRefAt(log', e.id, b, c);
      assert RefsAt(log', Some(e.id), newest.value, b);
    } else {
      assert CheckpointRefAt(log', e.id, c, c);
      assert RefsAt(log', Some(e.id), e.id, c);
    }
  }

  lemma CheckpointRegister(session: Session, log: seq<Entry>, o: OpId, op: Operation, e: Entry, session': Session, op': Operation)
    requires RunningAgrees(session, log, o, op) && op.active.None?
    requires e.body.Checkpoint? && BoundarySafe(log, e.body.boundary) && session'.checkpoint == Some(e.id)
    requires op' == op.(usage := op'.usage, unreportedMaintenance := op'.unreportedMaintenance, request := op'.request)
    requires op'.request.Some? ==>
               && op'.request.value.checkpoint == Some(e.id)
               && op'.request.value.boundary == RebuiltBoundary(log, e.body.boundary, e.id)
               && op'.request.value.hookResults == HookEntriesOf(log, o, ForRequest(op'.request.value.id))
    ensures RunningAgrees(session', log + [e], o, op')
  {
    hide SafeCut;
    SnocNeutral(log, e, o);
    UnresolvedNeutral(log, e, o);
    RebuiltResolves(log, e);
  }

  lemma CheckpointUsage(g: Graph, o: OpId, plan: Plan, carrier: Carrier, g': Graph)
    requires Accepted(g) && IsRunning(g, o) && g' == CommitCheckpoint(g, o, plan, carrier).value
    ensures g'.ops[o].usage == OperationUsage(g'.log, o) && g'.session.usage == SessionUsage(g'.log)
    ensures NamesCheckpoint(g'.session, g'.log)
  {
    Snoc(g.log, CheckpointEntry(o, plan, carrier), o);
    assert g'.log[|g.log|] == CheckpointEntry(o, plan, carrier);
  }

  lemma CheckpointAccepted(g: Graph, o: OpId, plan: Plan, carrier: Carrier)
    requires Accepted(g) && IsRunning(g, o) && CheckpointPlanFits(g, o, plan, carrier)
    ensures Accepted(CommitCheckpoint(g, o, plan, carrier).value)
  {
    hide LogFits, LogConsistent, OperationsAgree, EffectAgrees;
    var g' := CommitCheckpoint(g, o, plan, carrier).value;
    OnlyRunning(g, o);
    CheckpointLog(g, o, plan, carrier);
    CheckpointRegister(g.session, g.log, o, g.ops[o], CheckpointEntry(o, plan, carrier), g'.session, g'.ops[o]);
    CheckpointUsage(g, o, plan, carrier, g');
    TransactionAccepted(g, o, [CheckpointEntry(o, plan, carrier)], g');
  }

  // ---- Background completion ----------------------------------------------------------------

  lemma CompletionAccepted(g: Graph, id: EntryId, text: Text)
    requires Accepted(g) && IdentityFree(g.log, id)
    requires forall o :: o in g.ops && g.ops[o].active.Some? ==> g.ops[o].active.value.result != id
    ensures Accepted(RecordCompletion(g, id, text))
  {
    var e := Entry(id, None, Signal(CompletionSignal, None, text));
    var g' := RecordCompletion(g, id, text);
    AppendCompletion(g.session.fork, Admissions(g.ops), g.log, id, text);
    forall x | x in g.ops ensures OperationAgrees(g', x) && g'.ops[x].usage == OperationUsage(g'.log, x) {
      CompletionKeepsOperation(g, e, x);
    }
    Snoc(g.log, e, 0);
    CheckpointNamed(g);
    NamesCheckpointGrows(g.session, g.session, g.log, [e]);
  }

  lemma CompletionKeepsOperation(g: Graph, e: Entry, x: OpId)
    requires x in g.ops && OperationAgrees(g, x) && g.ops[x].usage == OperationUsage(g.log, x)
    requires IsCompletion(e) && e.owner.None?
    requires g.ops[x].active.Some? ==> g.ops[x].active.value.result != e.id
    ensures OperationAgrees(g.(log := g.log + [e]), x) && g.ops[x].usage == OperationUsage(g.log + [e], x)
  {
    AdmissionGrows(g.log, e, x, g.ops[x].admission);
    Snoc(g.log, e, x);
    if g.ops[x].status == Running {
      RunningGrowsForeign(g.session, g.log, e, x, g.ops[x]);
    } else {
      TerminalGrows(g.log, e, x, g.ops[x]);
    }
  }
}
