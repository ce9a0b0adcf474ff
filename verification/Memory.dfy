/** What each step does to the driver's own memory (harness/effect.go, compact.go, context.go):
    the frame it is in, the facts no publication has recorded, and the histories. */
module Memory {
  import opened Records
  import opened Validator
  import opened Transactions
  import opened View
  import opened Driver
  import opened Discipline
  import opened Shape
  import opened Invocations
  import opened Runs
  import opened Recovery

  // ---- Facts -----------------------------------------------------------------------------

  /** The unrecorded facts after a step: a maintenance intent retains its input as a new one, its
      result reports the usage on that one alone, a publication and a loss leave none. */
  predicate FactsAfter(s: Sys, step: Step, facts: seq<Fact>) {
    match step
    case BeginMaintenanceStep(_, producer, model, _) => facts == s.facts + [Fact(producer, model, None)]
    case CommitMaintenance(usage) =>
      |facts| == |s.facts| &&
      forall k :: 0 <= k < |facts| ==>
        && facts[k].request == s.facts[k].request && facts[k].model == s.facts[k].model
        && facts[k].usage == if usage.Some? && k == |facts| - 1 then usage else s.facts[k].usage
    case CheckpointStep(_, _, _, _) => facts == []
    case ManualCheckpointStep(_, _, _, _, _, _) => facts == []
    case ManualNoneStep(_, _, _) => facts == []
    case FinishModelStep(_, _, _, _, _, _) => facts == []
    case FinishMaintenanceStep(_, _, _, _, _) => facts == []
    case FinishQuietStep(_, _, _, _) => facts == []
    case Crash => facts == []
    case _ => facts == s.facts
  }

  /** The usage a maintenance result reports goes to the fact of the very request its effect ran. */
  lemma UsageReachesItsFact(s: Sys, usage: Usage)
    requires Inv(s) && CommitMaintenanceNext(s, Some(usage)).Some?
    ensures Op(s).active.Some? && Op(s).active.value.MaintenanceEffect?
    ensures var facts := CommitMaintenanceNext(s, Some(usage)).value.facts;
            |facts| == |s.facts| &&
            forall k :: 0 <= k < |facts| ==>
              && facts[k].request == s.facts[k].request && facts[k].model == s.facts[k].model
              && facts[k].usage == if facts[k].request == Op(s).active.value.request then Some(usage) else s.facts[k].usage
  {
    hide Accepted, RoundLogOk, CompactQuiet;
    var n := |s.facts| - 1;
    assert n >= 0 && s.facts[n].request == Op(s).active.value.request;
  }

  // ---- Histories ------------------------------------------------------------------------------

  /** What a callback's invocation is recorded as. */
  predicate RecordedAs(i: Invocation, o: OpId, effect: Effect) {
    match effect
    case ConversationEffect(_, r, _, _) => i == Requested(o, r)
    case MaintenanceEffect(_, r, _) => i == Requested(o, r)
    case ToolEffect(_, c, _) => i == Executed(o, c)
    case CallHookEffect(_, c, h) => i == Ran(o, ForCall(c), h)
    case RequestHookEffect(_, r, h, _) => i == Ran(o, ForRequest(r), h)
  }

  /** Only an invocation extends the history, by the one callback of the live effect; only an
      executor that was invoked reports; only a committed model intent is remembered as one. */
  ghost predicate HistoriesAfter(s: Sys, step: Step, s': Sys) {
    && (if step.Invoke? then
          Driving(s) && Op(s).active.Some? && !s.started && s'.started && |s'.invoked| == |s.invoked| + 1 &&
          s'.invoked[..|s.invoked|] == s.invoked && RecordedAs(s'.invoked[|s.invoked|], Current(s), Op(s).active.value)
        else s'.invoked == s.invoked)
    && (if step.CommitToolStep? && s.started then
          Driving(s) && Op(s).active.Some? && s'.reported == s.reported + {Op(s).active.value.result}
        else s'.reported == s.reported)
    && (if step.BeginModelStep? then Driving(s) && s.frame.Rounding? && s'.intended == s.intended + {(Current(s), s.frame.request)}
        else if step.BeginMaintenanceStep? && step.committed then
          Driving(s) && s'.intended == s.intended + {(Current(s), step.producer)}
        else s'.intended == s.intended)
  }

  // ---- Frames ---------------------------------------------------------------------------------

  /** Where the driver is after a step. */
  ghost predicate FrameAfter(s: Sys, step: Step, f: Frame) {
    match step
    case OpenRound(r, plan) =>
      f.Rounding? && f.request == r && f.plan == plan && f.done == 0 && !f.stopped &&
      f.checkpoint == s.g.session.checkpoint && Some(f.boundary) == ProjectedBoundary(s.g.log, s.g.session.checkpoint)
    case PureRequestHook => Goes(s.frame, f)
    case CommitRequestHook(outcome, _) => if outcome == HookSucceeded then Goes(s.frame, f) else Stops(s.frame, f)
    case StopRound => Stops(s.frame, f)
    case OpenManual => f == Manual(s.g.session.checkpoint, ProjectedBoundary(s.g.log, s.g.session.checkpoint))
    case CheckpointStep(id, _, boundary, _) =>
      s.frame.Rounding? && f.Rounding? && f.request == s.frame.request && f.plan == s.frame.plan && f.done == s.frame.done &&
      f.stopped == s.frame.stopped && f.checkpoint == Some(id) && f.boundary == RebuiltBoundary(s.g.log, boundary, id)
    case OpenChain(plan) => Driving(s) && |Op(s).pending| > 0 && f == Chaining(Op(s).pending[0].call, plan, 0, None)
    case PureCallHook => Goes(s.frame, f)
    case CommitCallHook(outcome, _) =>
      if outcome == HookSucceeded then Goes(s.frame, f)
      else s.frame.Chaining? && f == Chaining(s.frame.call, s.frame.plan, s.frame.done, Some(outcome))
    case Crash => f == Lost
    case Recover(_, _) => f == Lost
    case CompletionStep(_, _) => f == s.frame
    case BeginRequestHookStep(_) => f == s.frame
    case BeginMaintenanceStep(_, _, _, _) => f == s.frame
    case CommitMaintenance(_) => f == s.frame
    case BeginModelStep(_, _) => f == s.frame
    case BeginCallHookStep(_) => f == s.frame
    case BeginToolStep => f == s.frame
    case Invoke => f == s.frame
    case _ => f == Idle
  }

  /** The next hook of the plan has contributed. */
  predicate Goes(f: Frame, f': Frame) {
    (f.Rounding? && f' == Rounding(f.request, f.plan, f.done + 1, f.checkpoint, f.boundary, f.stopped)) ||
    (f.Chaining? && f' == Chaining(f.call, f.plan, f.done + 1, f.broken))
  }

  predicate Stops(f: Frame, f': Frame) {
    f.Rounding? && f' == Rounding(f.request, f.plan, f.done, f.checkpoint, f.boundary, true)
  }

  /** What a step leaves in the driver's memory. */
  ghost predicate Moved(s: Sys, step: Step, s': Sys) {
    FactsAfter(s, step, s'.facts) && HistoriesAfter(s, step, s') && FrameAfter(s, step, s'.frame)
  }

  lemma MemoryMoves(s: Sys, step: Step)
    requires Next(s, step).Some?
    ensures Moved(s, step, Next(s, step).value)
  {
    hide Next, Moved;
    if InMemory(step) || step.Invoke? {
      InMemoryMoves(s, step);
    } else if IsIntent(step) {
      IntentMoves(s, step);
    } else if IsFinish(step) || step.CheckpointStep? || step.ManualCheckpointStep? {
      PublicationMoves(s, step);
    } else if IsResult(step) {
      ResultMoves(s, step);
    } else {
      AdmissionMoves(s, step);
    }
  }

  lemma InMemoryMoves(s: Sys, step: Step)
    requires (InMemory(step) || step.Invoke?) && Next(s, step).Some?
    ensures Moved(s, step, Next(s, step).value)
  {
    hide FreshRequest, ProjectedBoundary, AdmitMessageNext, AdmitCompactNext, BeginRequestHookNext, CommitRequestHookNext,
      BeginMaintenanceNext, CommitMaintenanceNext, CheckpointNext, ManualCheckpointNext, ManualNoneNext, BeginModelNext,
      CommitModelNext, FinishModelNext, FinishMaintenanceNext, FinishQuietNext, BeginCallHookNext, CommitCallHookNext,
      SettleCallNext, BeginToolNext, CommitToolNext, CompletionNext, LifecycleNext, RecoverNext;
  }

  lemma IntentMoves(s: Sys, step: Step)
    requires IsIntent(step) && Next(s, step).Some?
    ensures Moved(s, step, Next(s, step).value)
  {
    hide FreshRequest, FreshEntry, RoundEvidence, AdmitMessageNext, AdmitCompactNext, OpenRoundNext, PureRequestHookNext,
      StopRoundNext, CommitRequestHookNext, OpenManualNext, CheckpointNext, ManualCheckpointNext, ManualNoneNext,
      CommitModelNext, FinishModelNext, FinishMaintenanceNext, FinishQuietNext, OpenChainNext, PureCallHookNext,
      CommitCallHookNext, SettleCallNext, InvokeNext, CommitToolNext, CompletionNext, LifecycleNext, CrashNext, RecoverNext,
      RestartNext;
  }

  lemma PublicationMoves(s: Sys, step: Step)
    requires (IsFinish(step) || step.CheckpointStep? || step.ManualCheckpointStep?) && Next(s, step).Some?
    ensures Moved(s, step, Next(s, step).value)
  {
    hide FreshEntry, ProducedBy, ProposalValid, RebuiltPaired, Settle, CommitCheckpoint, RebuiltBoundary, AdmitMessageNext,
      AdmitCompactNext, OpenRoundNext, PureRequestHookNext, StopRoundNext, BeginRequestHookNext, CommitRequestHookNext,
      OpenManualNext, BeginMaintenanceNext, CommitMaintenanceNext, BeginModelNext, CommitModelNext, OpenChainNext,
      PureCallHookNext, BeginCallHookNext, CommitCallHookNext, SettleCallNext, BeginToolNext, InvokeNext, CommitToolNext,
      CompletionNext, LifecycleNext, CrashNext, RestartNext;
  }

  lemma ResultMoves(s: Sys, step: Step)
    requires IsResult(step) && Next(s, step).Some?
    ensures Moved(s, step, Next(s, step).value)
  {
    hide FreshEntry, FreshProduced, CommitHook, CommitImmediate, CommitExecuted, CommitModelResult, AdmitMessageNext,
      AdmitCompactNext, OpenRoundNext, PureRequestHookNext, StopRoundNext, BeginRequestHookNext, OpenManualNext,
      BeginMaintenanceNext, CommitMaintenanceNext, CheckpointNext, ManualCheckpointNext, ManualNoneNext, BeginModelNext,
      FinishModelNext, FinishMaintenanceNext, FinishQuietNext, OpenChainNext, PureCallHookNext, BeginCallHookNext,
      BeginToolNext, InvokeNext, CompletionNext, LifecycleNext, CrashNext, RecoverNext, RestartNext;
  }

  lemma AdmissionMoves(s: Sys, step: Step)
    requires step.AdmitMessageStep? || step.AdmitCompactStep? || step.CompletionStep? || step.LifecycleStep?
    requires Next(s, step).Some?
    ensures Moved(s, step, Next(s, step).value)
  {
    hide FreshEntry, OpenRoundNext, PureRequestHookNext, StopRoundNext, BeginRequestHookNext, CommitRequestHookNext,
      OpenManualNext, BeginMaintenanceNext, CommitMaintenanceNext, CheckpointNext, ManualCheckpointNext, ManualNoneNext,
      BeginModelNext, CommitModelNext, FinishModelNext, FinishMaintenanceNext, FinishQuietNext, OpenChainNext,
      PureCallHookNext, BeginCallHookNext, CommitCallHookNext, SettleCallNext, BeginToolNext, InvokeNext, CommitToolNext,
      CrashNext, RecoverNext, RestartNext;
  }

  // ---- Reports ---------------------------------------------------------------------------------

  /** A live effect marked as started is one whose callback was invoked. */
  ghost predicate StartedIsInvoked(s: Sys) {
    Driving(s) && s.started && Op(s).active.Some? ==>
      exists i :: i in s.invoked && RecordedAs(i, Current(s), Op(s).active.value)
  }

  /** Either nothing about the live effect changed, or none is live, or it has not started. */
  ghost predicate StartKept(s: Sys, s': Sys) {
    || (s'.g == s.g && s'.started == s.started && s'.invoked == s.invoked)
    || !s'.started || !Driving(s') || Op(s').active.None?
  }

  lemma KeptStarted(s: Sys, s': Sys)
    requires StartedIsInvoked(s) && StartKept(s, s')
    ensures StartedIsInvoked(s')
  {
  }

  lemma NextStarted(s: Sys, step: Step)
    requires Inv(s) && StartedIsInvoked(s) && Next(s, step).Some?
    ensures StartedIsInvoked(Next(s, step).value)
  {
    hide Inv, Next, StartedIsInvoked, StartKept;
    if step.Invoke? {
      InvokeStarts(s);
    } else if step.CompletionStep? {
      CompletionStarts(s, step);
    } else if InMemory(step) {
      MemoryKeepsStart(s, step);
      KeptStarted(s, Next(s, step).value);
    } else if IsIntent(step) {
      IntentKeepsStart(s, step);
      KeptStarted(s, Next(s, step).value);
    } else if IsFinish(step) || step.CheckpointStep? || step.ManualCheckpointStep? {
      PublicationKeepsStart(s, step);
      KeptStarted(s, Next(s, step).value);
    } else if IsResult(step) {
      ResultKeepsStart(s, step);
      KeptStarted(s, Next(s, step).value);
    } else {
      AdmissionKeepsStart(s, step);
      KeptStarted(s, Next(s, step).value);
    }
  }

  lemma InvokeStarts(s: Sys)
    ensures InvokeNext(s).Some? ==> StartedIsInvoked(InvokeNext(s).value)
    ensures Next(s, Invoke) == InvokeNext(s)
  {
    hide AdmitMessageNext, AdmitCompactNext, OpenRoundNext, PureRequestHookNext, StopRoundNext, BeginRequestHookNext,
      CommitRequestHookNext, OpenManualNext, BeginMaintenanceNext, CommitMaintenanceNext, CheckpointNext,
      ManualCheckpointNext, ManualNoneNext, BeginModelNext, CommitModelNext, FinishModelNext, FinishMaintenanceNext,
      FinishQuietNext, OpenChainNext, PureCallHookNext, BeginCallHookNext, CommitCallHookNext, SettleCallNext,
      BeginToolNext, CommitToolNext, CompletionNext, LifecycleNext, CrashNext, RecoverNext, RestartNext;
    if InvokeNext(s).Some? {
      var s' := InvokeNext(s).value;
      var i := s'.invoked[|s.invoked|];
      assert i in s'.invoked && RecordedAs(i, Current(s'), Op(s').active.value);
    }
  }

  lemma CompletionStarts(s: Sys, step: Step)
    requires StartedIsInvoked(s) && step.CompletionStep? && Next(s, step).Some?
    ensures StartedIsInvoked(Next(s, step).value)
  {
    hide FreshEntry, AdmitMessageNext, AdmitCompactNext, OpenRoundNext, PureRequestHookNext, StopRoundNext,
      BeginRequestHookNext, CommitRequestHookNext, OpenManualNext, BeginMaintenanceNext, CommitMaintenanceNext,
      CheckpointNext, ManualCheckpointNext, ManualNoneNext, BeginModelNext, CommitModelNext, FinishModelNext,
      FinishMaintenanceNext, FinishQuietNext, OpenChainNext, PureCallHookNext, BeginCallHookNext, CommitCallHookNext,
      SettleCallNext, BeginToolNext, InvokeNext, CommitToolNext, LifecycleNext, CrashNext, RecoverNext, RestartNext;
  }

  lemma MemoryKeepsStart(s: Sys, step: Step)
    requires InMemory(step) && Next(s, step).Some?
    ensures StartKept(s, Next(s, step).value)
  {
    hide FreshRequest, AdmitMessageNext, AdmitCompactNext, BeginRequestHookNext, CommitRequestHookNext,
      BeginMaintenanceNext, CommitMaintenanceNext, CheckpointNext, ManualCheckpointNext, ManualNoneNext, BeginModelNext,
      CommitModelNext, FinishModelNext, FinishMaintenanceNext, FinishQuietNext, BeginCallHookNext, CommitCallHookNext,
      SettleCallNext, BeginToolNext, InvokeNext, CommitToolNext, CompletionNext, LifecycleNext, RecoverNext;
  }

  lemma IntentKeepsStart(s: Sys, step: Step)
    requires IsIntent(step) && Next(s, step).Some?
    ensures StartKept(s, Next(s, step).value)
  {
    hide FreshRequest, FreshEntry, RoundEvidence, AdmitMessageNext, AdmitCompactNext, OpenRoundNext, PureRequestHookNext,
      StopRoundNext, CommitRequestHookNext, OpenManualNext, CheckpointNext, ManualCheckpointNext, ManualNoneNext,
      CommitModelNext, FinishModelNext, FinishMaintenanceNext, FinishQuietNext, OpenChainNext, PureCallHookNext,
      CommitCallHookNext, SettleCallNext, InvokeNext, CommitToolNext, CompletionNext, LifecycleNext, CrashNext, RecoverNext,
      RestartNext;
  }

  lemma PublicationKeepsStart(s: Sys, step: Step)
    requires (IsFinish(step) || step.CheckpointStep? || step.ManualCheckpointStep?) && Next(s, step).Some?
    ensures StartKept(s, Next(s, step).value)
  {
    hide FreshEntry, ProducedBy, ProposalValid, RebuiltPaired, RebuiltBoundary, ChargeFacts, EndingLog, EndedOperation,
      AdmitMessageNext, AdmitCompactNext, OpenRoundNext, PureRequestHookNext, StopRoundNext, BeginRequestHookNext,
      CommitRequestHookNext, OpenManualNext, BeginMaintenanceNext, CommitMaintenanceNext, BeginModelNext, CommitModelNext,
      OpenChainNext, PureCallHookNext, BeginCallHookNext, CommitCallHookNext, SettleCallNext, BeginToolNext, InvokeNext,
      CommitToolNext, CompletionNext, LifecycleNext, CrashNext, RestartNext;
  }

  lemma ResultKeepsStart(s: Sys, step: Step)
    requires IsResult(step) && Next(s, step).Some?
    ensures StartKept(s, Next(s, step).value)
  {
    hide FreshEntry, FreshProduced, HookEntry, ToolResultEntry, WithoutIndex, ResultText, ChargeProduced, CallsPending,
      SignalEntry, AdmitMessageNext, AdmitCompactNext, OpenRoundNext, PureRequestHookNext, StopRoundNext,
      BeginRequestHookNext, OpenManualNext, BeginMaintenanceNext, CommitMaintenanceNext, CheckpointNext,
      ManualCheckpointNext, ManualNoneNext, BeginModelNext, FinishModelNext, FinishMaintenanceNext, FinishQuietNext,
      OpenChainNext, PureCallHookNext, BeginCallHookNext, BeginToolNext, InvokeNext, CompletionNext, LifecycleNext,
      CrashNext, RecoverNext, RestartNext;
  }

  lemma AdmissionKeepsStart(s: Sys, step: Step)
    requires step.AdmitMessageStep? || step.AdmitCompactStep? || step.LifecycleStep?
    requires Next(s, step).Some?
    ensures StartKept(s, Next(s, step).value)
  {
    hide FreshEntry, OpenRoundNext, PureRequestHookNext, StopRoundNext, BeginRequestHookNext, CommitRequestHookNext,
      OpenManualNext, BeginMaintenanceNext, CommitMaintenanceNext, CheckpointNext, ManualCheckpointNext, ManualNoneNext,
      BeginModelNext, CommitModelNext, FinishModelNext, FinishMaintenanceNext, FinishQuietNext, OpenChainNext,
      PureCallHookNext, BeginCallHookNext, CommitCallHookNext, SettleCallNext, BeginToolNext, InvokeNext, CommitToolNext,
      CompletionNext, CrashNext, RecoverNext, RestartNext;
  }

  /** In every run a live effect counts as started only once its callback was invoked. */
  lemma {:induction false} EveryRunStarts(moves: seq<Move>)
    requires Run(map[], moves).Some?
    ensures forall id :: id in Run(map[], moves).value ==> StartedIsInvoked(Run(map[], moves).value[id])
  {
    hide StartedIsInvoked, Apply, Good;
    if |moves| > 0 {
      EveryRunStarts(moves[..|moves| - 1]);
      EveryRunIsGood(moves[..|moves| - 1]);
      MoveStarts(Run(map[], moves[..|moves| - 1]).value, moves[|moves| - 1]);
    }
  }

  lemma MoveStarts(store: Store, move: Move)
    requires forall id :: id in store ==> Good(store[id]) && StartedIsInvoked(store[id])
    requires Apply(store, move).Some?
    ensures forall id :: id in Apply(store, move).value ==> StartedIsInvoked(Apply(store, move).value[id])
  {
    hide StartedIsInvoked, Next, Good, AdmitMessageNext, ForkedSession;
    match move
    case Create(id) => NotStartedYet(EmptySession());
    case Drive(id, step) =>
      GoodIsInv(store[id]);
      NextStarted(store[id], step);
    case ForkAt(source, id, n, rho, o, entry, text) =>
      var base := ForkedSession(store[source].g, n, rho);
      ForkNotStarted(store[source].g, n, rho);
      AdmissionNotStarted(base, o, entry, text);
      NotStartedYet(AdmitMessageNext(base, o, entry, User, text).value);
  }

  lemma NotStartedYet(s: Sys)
    requires !s.started
    ensures StartedIsInvoked(s)
  {
  }

  lemma ForkNotStarted(g: Graph, n: nat, rho: EntryId -> EntryId)
    requires n <= |g.log|
    ensures !ForkedSession(g, n, rho).started
  {
  }

  lemma AdmissionNotStarted(s: Sys, o: OpId, entry: EntryId, text: Text)
    requires AdmitMessageNext(s, o, entry, User, text).Some? && !s.started
    ensures !AdmitMessageNext(s, o, entry, User, text).value.started
  {
    hide FreshEntry;
  }

  /** In every run, a result behind a tool intent that says anything but that the execution was
      interrupted before its start is one whose executor was invoked. */
  lemma ReportsWereInvoked(moves: seq<Move>, id: SessionId, result: ResultStatus, base: Text, knowledge: Knowledge)
    requires Run(map[], moves).Some? && id in Run(map[], moves).value
    requires CommitToolNext(Run(map[], moves).value[id], result, base, knowledge).Some?
    requires result != ResultInterrupted || knowledge != NotStarted
    ensures var s := Run(map[], moves).value[id]; Driving(s) && s.frame.Chaining? && Executed(Current(s), s.frame.call) in s.invoked
  {
    hide Run, ResultText;
    EveryRunStarts(moves);
  }

  // ---- Cuts --------------------------------------------------------------------------------------

  /** The boundary a checkpoint publishes: the prior checkpoint again, or a message after its
      cut and not after the projection the round or the procedure froze. */
  ghost predicate CutsWithin(log: seq<Entry>, checkpoint: Option<EntryId>, frozen: EntryId, boundary: EntryId) {
    checkpoint == Some(boundary) ||
    exists p :: 0 <= p < |log| && log[p].id == boundary && MessageBearing(log[p].body) && p > Cutoff(log, checkpoint) &&
                exists f :: p <= f < |log| && log[f].id == frozen
  }

  lemma CheckpointCutsWithin(s: Sys, step: Step)
    requires (step.CheckpointStep? || step.ManualCheckpointStep?) && ProposalValid(s, step.boundary)
    ensures Committed(s.g.log, step.boundary)
    ensures s.frame.Rounding? ==> CutsWithin(s.g.log, s.frame.checkpoint, s.frame.boundary, step.boundary)
    ensures s.frame.Manual? ==> s.frame.tail.Some? && CutsWithin(s.g.log, s.frame.checkpoint, s.frame.tail.value, step.boundary)
  {
    hide SafeCut;
    var p := PositionOf(s.g.log, step.boundary);
    assert p >= 0 && s.g.log[p].id == step.boundary;
  }

  // ---- No state is stuck --------------------------------------------------------------------------

  /** A step that concludes what the current Operation is doing: its live effect, or with none
      the Operation itself. */
  function Conclusion(op: Operation, signal: EntryId, settlement: EntryId): Step {
    if op.active.None? then FinishQuietStep(Failure, "failed", signal, settlement)
    else
      match op.active.value
      case ConversationEffect(_, _, _, _) => FinishModelStep(Failure, "failed", None, None, signal, settlement)
      case MaintenanceEffect(_, r, _) => FinishMaintenanceStep(Failure, "failed", r, signal, settlement)
      case ToolEffect(_, _, _) => CommitToolStep(ResultInterrupted, "", NotStarted)
      case CallHookEffect(_, _, _) => CommitCallHook(HookInterrupted, NotStarted)
      case RequestHookEffect(_, _, _, _) => CommitRequestHook(HookInterrupted, NotStarted)
  }

  /** While the process lives, whatever the current Operation is doing can be concluded: its
      live effect ends, or the quiet Operation settles, and every state in between is one of
      the same kind. */
  lemma NeverStuck(s: Sys, signal: EntryId, settlement: EntryId)
    requires Good(s) && Driving(s) && s.frame != Lost && FreshPair(s.g, signal, settlement)
    ensures Next(s, Conclusion(Op(s), signal, settlement)).Some?
    ensures var s' := Next(s, Conclusion(Op(s), signal, settlement)).value;
            && Good(s')
            && (if Op(s).active.None? || IsModelEffect(Op(s).active) then s'.g.session.current.None? && s'.frame == Idle
                else Driving(s') && Current(s') == Current(s) && Op(s').active.None? && s'.frame != Lost)
  {
    hide Good, Next, FreshEntry;
    var step := Conclusion(Op(s), signal, settlement);
    ConclusionOpen(s, signal, settlement);
    StepIsGood(s, step);
    ConclusionEnds(s, signal, settlement);
  }

  lemma ConclusionOpen(s: Sys, signal: EntryId, settlement: EntryId)
    requires Good(s) && Driving(s) && s.frame != Lost && FreshPair(s.g, signal, settlement)
    ensures Next(s, Conclusion(Op(s), signal, settlement)).Some?
  {
    hide Good, Inv, FreshEntry, Settle, HookEntry, ToolResultEntry, AfterToolResult, AdmitMessageNext, AdmitCompactNext,
      OpenRoundNext, PureRequestHookNext, StopRoundNext, BeginRequestHookNext, OpenManualNext, BeginMaintenanceNext,
      CommitMaintenanceNext, CheckpointNext, ManualCheckpointNext, ManualNoneNext, BeginModelNext, CommitModelNext,
      OpenChainNext, PureCallHookNext, BeginCallHookNext, SettleCallNext, BeginToolNext, InvokeNext, CompletionNext,
      LifecycleNext, CrashNext, RecoverNext, RestartNext;
    if Op(s).active.Some? {
      GoodIsInv(s);
      EffectShaped(s);
    }
  }

  /** A live effect runs in its own frame, a tool's under its first pending call. */
  lemma EffectShaped(s: Sys)
    requires Inv(s) && Driving(s) && s.frame != Lost && Op(s).active.Some?
    ensures match Op(s).active.value
            case ConversationEffect(_, _, _, _) => s.frame.Rounding?
            case MaintenanceEffect(_, _, _) => RoundComplete(s.frame) || s.frame.Manual?
            case RequestHookEffect(_, _, _, _) => s.frame.Rounding?
            case CallHookEffect(_, _, _) => s.frame.Chaining?
            case ToolEffect(result, c, _) =>
              s.frame.Chaining? && s.frame.call == c && |Op(s).pending| > 0 && Op(s).pending[0].call == c && Op(s).pending[0].result == result
  {
    hide LogAccepted, SessionAgrees, UsageAgrees, RoundLogOk, ChainLogOk, CompactQuiet;
    assert OperationAgrees(s.g, Current(s));
  }

  lemma ConclusionEnds(s: Sys, signal: EntryId, settlement: EntryId)
    requires Driving(s) && s.frame != Lost && Next(s, Conclusion(Op(s), signal, settlement)).Some?
    ensures var s' := Next(s, Conclusion(Op(s), signal, settlement)).value;
            if Op(s).active.None? || IsModelEffect(Op(s).active) then s'.g.session.current.None? && s'.frame == Idle
            else Driving(s') && Current(s') == Current(s) && Op(s').active.None? && s'.frame != Lost
  {
    hide FreshEntry, EndingLog, EndedOperation, EndingUsage, HookEntry, ToolResultEntry, WithoutIndex, AdmitMessageNext,
      AdmitCompactNext, OpenRoundNext, PureRequestHookNext, StopRoundNext, BeginRequestHookNext, OpenManualNext,
      BeginMaintenanceNext, CommitMaintenanceNext, CheckpointNext, ManualCheckpointNext, ManualNoneNext, BeginModelNext,
      CommitModelNext, OpenChainNext, PureCallHookNext, BeginCallHookNext, SettleCallNext, BeginToolNext, InvokeNext,
      CompletionNext, LifecycleNext, CrashNext, RecoverNext, RestartNext;
  }
}
