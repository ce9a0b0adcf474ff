/** The only ways a step of one Session can move its log and its registers. */
module Shape {
  import opened Records
  import opened Validator
  import opened Transactions
  import opened Growth
  import opened Settling
  import opened Commits
  import opened View
  import opened Driver
  import opened Discipline
  import opened RoundSteps
  import opened MaintenanceSteps
  import opened CallSteps

  /** One step of a driven Session keeps the validator's verdict and the driver's discipline. */
  lemma NextKeeps(s: Sys, step: Step)
    requires Inv(s) && Next(s, step).Some?
    ensures Inv(Next(s, step).value)
  {
    hide Inv, AdmitMessageNext, AdmitCompactNext, OpenRoundNext, PureRequestHookNext, StopRoundNext, BeginRequestHookNext,
      CommitRequestHookNext, OpenManualNext, BeginMaintenanceNext, CommitMaintenanceNext, CheckpointNext,
      ManualCheckpointNext, ManualNoneNext, BeginModelNext, CommitModelNext, FinishModelNext, FinishMaintenanceNext,
      FinishQuietNext, OpenChainNext, PureCallHookNext, BeginCallHookNext, CommitCallHookNext, SettleCallNext,
      BeginToolNext, InvokeNext, CommitToolNext, CompletionNext, LifecycleNext, CrashNext, RecoverNext, RestartNext;
    match step
    case AdmitMessageStep(o, entry, origin, text) => AdmitMessageKeeps(s, o, entry, origin, text);
    case AdmitCompactStep(o) => AdmitCompactKeeps(s, o);
    case OpenRound(r, plan) => OpenRoundKeeps(s, r, plan);
    case PureRequestHook => PureRequestHookKeeps(s);
    case StopRound => StopRoundKeeps(s);
    case BeginRequestHookStep(result) => BeginRequestHookKeeps(s, result);
    case CommitRequestHook(outcome, knowledge) => CommitRequestHookKeeps(s, outcome, knowledge);
    case OpenManual => OpenManualKeeps(s);
    case BeginMaintenanceStep(result, producer, m, committed) => BeginMaintenanceKeeps(s, result, producer, m, committed);
    case CommitMaintenance(usage) => CommitMaintenanceKeeps(s, usage);
    case CheckpointStep(id, messages, boundary, producer) => CheckpointKeeps(s, id, messages, boundary, producer);
    case ManualCheckpointStep(id, messages, boundary, producer, settlement, signal) =>
      ManualCheckpointKeeps(s, id, messages, boundary, producer, settlement, signal);
    case ManualNoneStep(producer, settlement, signal) => ManualNoneKeeps(s, producer, settlement, signal);
    case BeginModelStep(result, m) => BeginModelKeeps(s, result, m);
    case CommitModelStep(a, signal) => CommitModelKeeps(s, a, signal);
    case FinishModelStep(status, detail, a, usage, signal, settlement) =>
      FinishModelKeeps(s, status, detail, a, usage, signal, settlement);
    case FinishMaintenanceStep(status, detail, producer, signal, settlement) =>
      FinishMaintenanceKeeps(s, status, detail, producer, signal, settlement);
    case FinishQuietStep(status, detail, signal, settlement) => FinishQuietKeeps(s, status, detail, signal, settlement);
    case OpenChain(plan) => OpenChainKeeps(s, plan);
    case PureCallHook => PureCallHookKeeps(s);
    case BeginCallHookStep(result) => BeginCallHookKeeps(s, result);
    case CommitCallHook(outcome, knowledge) => CommitCallHookKeeps(s, outcome, knowledge);
    case SettleCallStep(result, text, knowledge, accepted) => SettleCallKeeps(s, result, text, knowledge, accepted);
    case BeginToolStep => BeginToolKeeps(s);
    case Invoke => InvokeKeeps(s);
    case CommitToolStep(result, text, knowledge) => CommitToolKeeps(s, result, text, knowledge);
    case CompletionStep(entry, text) => CompletionKeeps(s, entry, text);
    case LifecycleStep(open) => LifecycleKeeps(s, open);
    case Crash => CrashKeeps(s);
    case Recover(signal, settlement) => RecoverKeeps(s, signal, settlement);
    case Restart => RestartKeeps(s);
  }

  // ---- Shapes ------------------------------------------------------------------------

  /** The one new entry kind a transaction of a running Operation may not append. */
  predicate NoInputs(es: seq<Entry>) {
    forall i :: 0 <= i < |es| ==> !es[i].body.Input?
  }

  predicate NoAssistants(es: seq<Entry>) {
    forall i :: 0 <= i < |es| ==> !es[i].body.Assistant?
  }

  predicate NoCheckpoints(es: seq<Entry>) {
    forall i :: 0 <= i < |es| ==> !es[i].body.Checkpoint?
  }

  /** Only a leading entry may publish calls. */
  predicate PublishesFirst(es: seq<Entry>) {
    forall i :: 1 <= i < |es| ==> !es[i].body.Assistant?
  }

  /** Entries of the current Operation; at most a leading checkpoint, which the register then names. */
  ghost predicate OwnGrowth(s: Sys, s': Sys, es: seq<Entry>) {
    && Driving(s)
    && s'.g.log == s.g.log + es && AllOwned(es, Current(s)) && NoInputs(es) && PublishesFirst(es)
    && s'.g.ops.Keys == s.g.ops.Keys
    && (forall x :: x in s.g.ops && x != Current(s) ==> s'.g.ops[x] == s.g.ops[x])
    && s'.g.session.fork == s.g.session.fork
    && s'.g.session.current == (if s'.g.ops[Current(s)].status == Running then Some(Current(s)) else None)
    && (if |es| > 0 && es[0].body.Checkpoint?
        then NoCheckpoints(es[1..]) && s'.g.session.checkpoint == Some(es[0].id) &&
             InProcedure(s) && ProposalValid(s, es[0].body.boundary) &&
             RebuiltPaired(s, es[0].body.messages, es[0].body.boundary)
        else NoCheckpoints(es) && s'.g.session.checkpoint == s.g.session.checkpoint)
  }

  ghost predicate SameRecords(s: Sys, s': Sys) {
    s'.g == s.g
  }

  ghost predicate Admits(s: Sys, s': Sys, o: OpId, es: seq<Entry>) {
    && CanAdmit(s.g, o)
    && s'.g.log == s.g.log + es && |es| <= 1
    && (|es| == 1 ==> Owned(es[0], o) && es[0].body.Input?)
    && s'.g.ops.Keys == s.g.ops.Keys + {o} && s'.g.ops[o].status == Running
    && (forall x :: x in s.g.ops ==> s'.g.ops[x] == s.g.ops[x])
    && s'.g.session == s.g.session.(current := Some(o))
  }

  ghost predicate Signals(s: Sys, s': Sys, e: Entry) {
    && s'.g == s.g.(log := s.g.log + [e]) && e.owner.None? && IsCompletion(e)
  }

  ghost predicate Opens(s: Sys, s': Sys, open: bool) {
    s.g.session.current.None? && s'.g == s.g.(session := s.g.session.(open := open))
  }

  /** Every step has exactly one of these effects on the durable records. */
  ghost predicate Shaped(s: Sys, s': Sys) {
    || (exists es :: OwnGrowth(s, s', es))
    || SameRecords(s, s')
    || (exists o, es :: Admits(s, s', o, es))
    || (exists e :: Signals(s, s', e))
    || (exists open :: Opens(s, s', open))
  }

  lemma Grows(s: Sys, s': Sys, es: seq<Entry>)
    requires OwnGrowth(s, s', es)
    ensures Shaped(s, s')
  {
  }

  lemma SettleGrows(s: Sys, s': Sys, e: Ending)
    requires Driving(s) && e.status != Running && s'.g == Settle(s.g, Current(s), e)
    ensures OwnGrowth(s, s', EndingEntries(s.g.log, Current(s), Op(s), e))
    ensures NoCheckpoints(EndingEntries(s.g.log, Current(s), Op(s), e))
    ensures e.assistant.None? ==> NoAssistants(EndingEntries(s.g.log, Current(s), Op(s), e))
  {
    hide Reconciles;
    var o, op := Current(s), Op(s);
    EndingLogSplits(s.g.log, o, op, e);
    var es := EndingEntries(s.g.log, o, op, e);
    var opening := EndingOpening(s.g.log, o, op, e);
    ClosingIsInert(opening, o, op, e);
    forall i | 0 <= i < |es|
      ensures !es[i].body.Input? && !es[i].body.Checkpoint? && (i > 0 || e.assistant.None? ==> !es[i].body.Assistant?)
    {
      EndingEntryKinds(s.g.log, o, op, e, i);
    }
  }

  lemma EndingEntryKinds(log: seq<Entry>, o: OpId, op: Operation, e: Ending, i: int)
    requires 0 <= i < |EndingEntries(log, o, op, e)|
    ensures !EndingEntries(log, o, op, e)[i].body.Input? && !EndingEntries(log, o, op, e)[i].body.Checkpoint?
    ensures i > 0 || e.assistant.None? ==> !EndingEntries(log, o, op, e)[i].body.Assistant?
  {
    var opening := EndingOpening(log, o, op, e);
    ClosingIsInert(opening, o, op, e);
    var es := EndingEntries(log, o, op, e);
    var front := AssistantEntries(o, e.assistant) + HookRemnant(o, op.active);
    var middle := ClosingPart(opening, o, op, e);
    assert es == front + middle + [SettlementEntry(o, op, e)];
    if i < |front| {
      assert es[i] == front[i];
    } else if i < |front| + |middle| {
      assert es[i] == middle[i - |front|];
      assert Inert(middle[i - |front|], o);
    }
  }

  /** A register-only transaction of the running Operation. */
  lemma RegisterGrows(s: Sys, s': Sys)
    requires Driving(s) && Current(s) in s'.g.ops && s'.g == WithOp(s.g, Current(s), s'.g.ops[Current(s)])
    requires s'.g.ops[Current(s)].status == Running
    ensures Shaped(s, s')
  {
    assert s.g.log + [] == s.g.log;
    Grows(s, s', []);
  }

  /** A running transaction that appends entries of its own, none of them a checkpoint. */
  lemma RunningGrows(s: Sys, s': Sys, es: seq<Entry>)
    requires Driving(s) && Current(s) in s'.g.ops && s'.g.ops[Current(s)].status == Running
    requires s'.g == Graph(s.g.session.(usage := s'.g.session.usage), s.g.ops[Current(s) := s'.g.ops[Current(s)]], s.g.log + es)
    requires AllOwned(es, Current(s)) && NoInputs(es) && NoCheckpoints(es) && PublishesFirst(es)
    ensures Shaped(s, s')
  {
    Grows(s, s', es);
  }

  lemma CheckpointGrows(s: Sys, s': Sys, id: EntryId, messages: seq<Message>, boundary: EntryId, producer: RequestId)
    requires CheckpointNext(s, id, messages, boundary, producer) == Some(s')
    ensures Shaped(s, s')
  {
    var plan := Plan(id, messages, boundary, RoundEvidence(s.frame));
    Grows(s, s', [CheckpointEntry(Current(s), plan, ProcedureCarrier(s, producer))]);
  }

  /** A checkpoint and the settlement that follows it in the same transaction. */
  lemma CheckpointThenSettle(s: Sys, plan: Plan, carrier: Carrier, e: Ending, s': Sys)
    requires InProcedure(s) && ProposalValid(s, plan.boundary) && RebuiltPaired(s, plan.messages, plan.boundary) && e.status != Running && e.assistant.None?
    requires var mid := CommitCheckpoint(s.g, Current(s), plan, carrier).value;
             IsRunning(mid, Current(s)) && s'.g == Settle(mid, Current(s), e)
    ensures Shaped(s, s')
  {
    hide EndingEntries, ProposalValid, RebuiltPaired, RebuiltBoundary, EndingUsage, ChargeFacts, EndingLog;
    var o := Current(s);
    var x := CheckpointEntry(o, plan, carrier);
    var mid := s.(g := CommitCheckpoint(s.g, o, plan, carrier).value);
    SettleGrows(mid, s', e);
    var es := EndingEntries(mid.g.log, o, Op(mid), e);
    assert s'.g.log == s.g.log + ([x] + es);
    assert ([x] + es)[1..] == es;
    Grows(s, s', [x] + es);
  }

  lemma ManualCheckpointGrows(s: Sys, s': Sys, id: EntryId, messages: seq<Message>, boundary: EntryId, producer: RequestId,
                              settlement: EntryId, signal: EntryId)
    requires ManualCheckpointNext(s, id, messages, boundary, producer, settlement, signal) == Some(s')
    ensures Shaped(s, s')
  {
    hide Settle, FreshEntry, Shaped, SafeCut, CoveredBoundary;
    CheckpointThenSettle(s, Plan(id, messages, boundary, Evidence(s.frame.checkpoint, s.frame.tail.value, [])),
                         ProcedureCarrier(s, producer), SuccessEnding(None, settlement, signal), s');
  }

  predicate IsIntent(step: Step) {
    step.BeginRequestHookStep? || step.BeginMaintenanceStep? || step.CommitMaintenance? || step.BeginModelStep? ||
    step.BeginCallHookStep? || step.BeginToolStep?
  }

  lemma IntentsGrow(s: Sys, step: Step)
    requires IsIntent(step) && Next(s, step).Some?
    ensures Shaped(s, Next(s, step).value)
  {
    hide FreshEntry, FreshRequest, AdmitMessageNext, AdmitCompactNext, OpenRoundNext, PureRequestHookNext, StopRoundNext,
      CommitRequestHookNext, OpenManualNext, CheckpointNext, ManualCheckpointNext, ManualNoneNext, CommitModelNext,
      FinishModelNext, FinishMaintenanceNext, FinishQuietNext, OpenChainNext, PureCallHookNext, CommitCallHookNext,
      SettleCallNext, InvokeNext, CommitToolNext, CompletionNext, LifecycleNext, CrashNext, RecoverNext, RestartNext;
    var s' := Next(s, step).value;
    if step.BeginMaintenanceStep? && !step.committed {
      assert SameRecords(s, s');
    } else {
      RegisterGrows(s, s');
    }
  }

  predicate IsResult(step: Step) {
    step.CommitRequestHook? || step.CommitCallHook? || step.SettleCallStep? || step.CommitToolStep? || step.CommitModelStep?
  }

  lemma ModelResultGrows(s: Sys, a: Option<Produced>, signal: Option<EntryId>)
    requires CommitModelNext(s, a, signal).Some?
    ensures Shaped(s, CommitModelNext(s, a, signal).value)
  {
    hide FreshEntry, ProducedBy, ChargeProduced, FreshBeside, Shaped;
    var s' := CommitModelNext(s, a, signal).value;
    var es := ModelResultEntries(Current(s), a, signal);
    assert s'.g.log == s.g.log + es;
    RunningGrows(s, s', es);
  }

  lemma ResultsGrow(s: Sys, step: Step)
    requires IsResult(step) && Next(s, step).Some?
    ensures Shaped(s, Next(s, step).value)
  {
    hide CommitModelNext, ChargeProduced, Reconciles, Shaped;
    var s' := Next(s, step).value;
    if step.CommitModelStep? {
      ModelResultGrows(s, step.produced, step.continuation);
    } else {
      var e := s'.g.log[|s.g.log|];
      assert s'.g.log == s.g.log + [e];
      RunningGrows(s, s', [e]);
    }
  }

  predicate IsFinish(step: Step) {
    step.ManualNoneStep? || step.FinishModelStep? || step.FinishMaintenanceStep? || step.FinishQuietStep? || step.Recover?
  }

  /** The ending a terminal step publishes. */
  function EndingOf(s: Sys, step: Step): Ending
    requires Driving(s) && IsFinish(step) && (step.FinishModelStep? ==> IsModelEffect(Op(s).active))
  {
    match step
    case ManualNoneStep(producer, settlement, signal) =>
      SuccessEnding(if s.facts == [] then None else Some(ProcedureCarrier(s, producer)), settlement, signal)
    case FinishModelStep(status, detail, a, usage, signal, settlement) =>
      Ending(status, detail, a, if usage.Some? then Some((Op(s).active.value.model, usage.value)) else None, false,
             OuterCarrier(s), signal, settlement)
    case FinishMaintenanceStep(status, detail, producer, signal, settlement) =>
      Ending(status, detail, None, None, true, Some(ProcedureCarrier(s, producer)), signal, settlement)
    case FinishQuietStep(status, detail, signal, settlement) =>
      Ending(status, detail, None, None, false, OuterCarrier(s), signal, settlement)
    case Recover(signal, settlement) => RecoveryEnding(signal, settlement)
  }

  lemma FinishSettles(s: Sys, step: Step)
    requires IsFinish(step) && Next(s, step).Some?
    ensures Driving(s) && (step.FinishModelStep? ==> IsModelEffect(Op(s).active))
    ensures Next(s, step).value.g == Settle(s.g, Current(s), EndingOf(s, step))
    ensures EndingOf(s, step).status != Running
  {
    hide FreshEntry, ProducedBy, EndingLog;
  }

  lemma RecordsGrow(s: Sys, step: Step)
    requires Next(s, step).Some?
    ensures Shaped(s, Next(s, step).value)
  {
    hide EndingLog, ProposalValid, RebuiltPaired, FreshEntry, FreshRequest, ProducedBy;
    var s' := Next(s, step).value;
    if IsIntent(step) {
      IntentsGrow(s, step);
    } else if IsResult(step) {
      ResultsGrow(s, step);
    } else if IsFinish(step) {
      FinishSettles(s, step);
      SettleGrows(s, s', EndingOf(s, step));
    } else if step.CheckpointStep? {
      CheckpointGrows(s, s', step.id, step.messages, step.boundary, step.producer);
    } else if step.ManualCheckpointStep? {
      ManualCheckpointGrows(s, s', step.id, step.messages, step.boundary, step.producer, step.settlement, step.signal);
    } else {
      OthersGrowRecords(s, step);
    }
  }

  lemma OthersGrowRecords(s: Sys, step: Step)
    requires !IsIntent(step) && !IsResult(step) && !IsFinish(step) && !step.CheckpointStep? && !step.ManualCheckpointStep?
    requires Next(s, step).Some?
    ensures Shaped(s, Next(s, step).value)
  {
    hide FreshEntry, FreshRequest;
    var s' := Next(s, step).value;
    if step.AdmitMessageStep? {
      assert Admits(s, s', step.op, [Entry(step.entry, Some(step.op), Input(step.origin, step.text))]);
    } else if step.AdmitCompactStep? {
      assert s.g.log + [] == s.g.log;
      assert Admits(s, s', step.op, []);
    } else if step.CompletionStep? {
      assert Signals(s, s', Entry(step.entry, None, Signal(CompletionSignal, None, step.text)));
    } else if step.LifecycleStep? {
      assert Opens(s, s', step.open);
    }
  }
}
