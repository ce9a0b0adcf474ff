/** The marker of unrecorded maintenance (harness/effect.go, compact.go, estimate.go): what
    raises and retires it, and so when an Operation's estimate is known. */
module Markers {
  import opened Records
  import opened Validator
  import opened Transactions
  import opened Settling
  import opened View
  import opened Driver
  import opened Discipline
  import opened Shape
  import opened Invocations
  import opened Runs
  import opened Tallies
  import opened Estimate
  import opened Contents

  /** Between two steps a raised marker stands for facts the driver still holds, or for what a
      process loss dropped; on a settled Operation, only for the latter. */
  ghost predicate Marked(s: Sys) {
    forall o :: o in s.g.ops && s.g.ops[o].unreportedMaintenance ==>
                  s.g.ops[o].status == Interruption || (s.g.ops[o].status == Running && (s.frame == Lost || s.facts != []))
  }

  /** Every other register stands, and this one keeps its marker and its status. */
  ghost predicate KeepsMarkers(s: Sys, s': Sys) {
    forall o :: o in s'.g.ops && s'.g.ops[o].unreportedMaintenance ==>
                  o in s.g.ops && s.g.ops[o].unreportedMaintenance && s'.g.ops[o].status == s.g.ops[o].status
  }

  lemma KeptMarked(s: Sys, s': Sys)
    requires Marked(s) && KeepsMarkers(s, s') && (s.frame == Lost || s.facts != [] ==> s'.frame == Lost || s'.facts != [])
    ensures Marked(s')
  {
  }

  lemma MemoryMarked(s: Sys, step: Step)
    requires Inv(s) && Marked(s) && InMemory(step) && Next(s, step).Some?
    ensures Marked(Next(s, step).value)
  {
    hide Accepted, FrameOk, FactsFit, FreshRequest, AdmitMessageNext, AdmitCompactNext, BeginRequestHookNext,
      CommitRequestHookNext, BeginMaintenanceNext, CommitMaintenanceNext, CheckpointNext, ManualCheckpointNext,
      ManualNoneNext, BeginModelNext, CommitModelNext, FinishModelNext, FinishMaintenanceNext, FinishQuietNext,
      BeginCallHookNext, CommitCallHookNext, SettleCallNext, BeginToolNext, InvokeNext, CommitToolNext, CompletionNext,
      LifecycleNext, RecoverNext;
    var s' := Next(s, step).value;
    if step.Restart? {
      NothingRuns(s);
    }
    assert s'.g == s.g;
  }

  lemma NothingRuns(s: Sys)
    requires Inv(s) && s.g.session.current.None?
    ensures forall o :: o in s.g.ops ==> s.g.ops[o].status != Running
  {
    hide LogAccepted, OperationsAgree, UsageAgrees, DriverOk;
  }

  lemma IntentMarked(s: Sys, step: Step)
    requires Marked(s) && (IsIntent(step) || step.Invoke?) && !step.CommitMaintenance? && Next(s, step).Some?
    ensures Marked(Next(s, step).value)
  {
    hide FreshRequest, FreshEntry, RoundEvidence, AdmitMessageNext, AdmitCompactNext, OpenRoundNext, PureRequestHookNext,
      StopRoundNext, CommitRequestHookNext, OpenManualNext, CommitMaintenanceNext, CheckpointNext, ManualCheckpointNext,
      ManualNoneNext, CommitModelNext, FinishModelNext, FinishMaintenanceNext, FinishQuietNext, OpenChainNext,
      PureCallHookNext, CommitCallHookNext, SettleCallNext, CommitToolNext, CompletionNext, LifecycleNext, CrashNext,
      RecoverNext, RestartNext;
    var s' := Next(s, step).value;
    assert KeepsMarkers(s, s');
    KeptMarked(s, s');
  }

  /** A completed maintenance effect raises the marker with its fact still in hand. */
  lemma MaintenanceMarked(s: Sys, usage: Option<Usage>)
    requires Inv(s) && Marked(s) && CommitMaintenanceNext(s, usage).Some?
    ensures Marked(CommitMaintenanceNext(s, usage).value)
  {
    hide Accepted, FactsFit, RoundLogOk, ChainLogOk, CompactQuiet;
    var s' := CommitMaintenanceNext(s, usage).value;
    assert |s'.facts| == |s.facts| > 0;
  }

  /** A settlement leaves the marker only where no fact was carried, so only after a loss. */
  lemma FinishMarked(s: Sys, step: Step)
    requires Inv(s) && Marked(s) && IsFinish(step) && Next(s, step).Some?
    ensures Marked(Next(s, step).value)
  {
    hide Inv, Next, FreshEntry, Settle, EndingWritten;
    var s' := Next(s, step).value;
    FinishSettles(s, step);
    FinishCarries(s, step);
    if s.frame == Lost {
      FinishOutOfLoss(s, step);
    }
    var o, e := Current(s), EndingOf(s, step);
    SettlementWrites(s.g, o, e);
    assert Facts(e) == CarriedFacts(e.carrier);
    assert forall x :: x in s'.g.ops && x != o ==> s'.g.ops[x] == s.g.ops[x];
    forall x | x in s'.g.ops && s'.g.ops[x].unreportedMaintenance ensures s'.g.ops[x].status == Interruption {
      if x == o {
        assert s.g.ops[o].unreportedMaintenance && s.g.ops[o].status == Running;
      } else {
        OthersStopped(s, x);
      }
    }
  }

  lemma OthersStopped(s: Sys, x: OpId)
    requires Inv(s) && Driving(s) && x in s.g.ops && x != Current(s)
    ensures s.g.ops[x].status != Running
  {
    hide LogAccepted, OperationsAgree, UsageAgrees, DriverOk;
  }

  /** Once the process is lost only recovery settles. */
  lemma FinishOutOfLoss(s: Sys, step: Step)
    requires IsFinish(step) && Driving(s) && (step.FinishModelStep? ==> IsModelEffect(Op(s).active)) && s.frame == Lost
    ensures Next(s, step).Some? ==> step.Recover?
  {
    hide FreshEntry, ProducedBy, Settle, RECOVERY_DETAIL, AdmitMessageNext, AdmitCompactNext, OpenRoundNext,
      PureRequestHookNext, StopRoundNext, BeginRequestHookNext, CommitRequestHookNext, OpenManualNext, BeginMaintenanceNext,
      CommitMaintenanceNext, CheckpointNext, ManualCheckpointNext, BeginModelNext, CommitModelNext, OpenChainNext,
      PureCallHookNext, BeginCallHookNext, CommitCallHookNext, SettleCallNext, BeginToolNext, InvokeNext, CommitToolNext,
      CompletionNext, LifecycleNext, CrashNext, RestartNext;
  }

  lemma CheckpointMarked(s: Sys, step: Step)
    requires Inv(s) && Marked(s) && (step.CheckpointStep? || step.ManualCheckpointStep?) && Next(s, step).Some?
    ensures Marked(Next(s, step).value)
  {
    hide Inv, SafeCut, CoveredBoundary, RebuiltPaired, FreshEntry, RebuiltBoundary, ChargeFacts, EndingLog, RoundEvidence,
      AdmitMessageNext, AdmitCompactNext, OpenRoundNext, PureRequestHookNext, StopRoundNext, BeginRequestHookNext,
      CommitRequestHookNext, OpenManualNext, BeginMaintenanceNext, CommitMaintenanceNext, ManualNoneNext, BeginModelNext,
      CommitModelNext, FinishModelNext, FinishMaintenanceNext, FinishQuietNext, OpenChainNext, PureCallHookNext,
      BeginCallHookNext, CommitCallHookNext, SettleCallNext, BeginToolNext, InvokeNext, CommitToolNext, CompletionNext,
      LifecycleNext, CrashNext, RecoverNext, RestartNext;
    var s' := Next(s, step).value;
    var o := Current(s);
    assert !s'.g.ops[o].unreportedMaintenance;
    forall x | x in s'.g.ops && s'.g.ops[x].unreportedMaintenance ensures s'.g.ops[x].status == Interruption {
      assert x != o && s'.g.ops[x] == s.g.ops[x];
      OthersStopped(s, x);
    }
  }

  lemma ResultMarked(s: Sys, step: Step)
    requires Marked(s) && IsResult(step) && Next(s, step).Some?
    ensures Marked(Next(s, step).value)
  {
    hide Marked, KeepsMarkers, Next;
    if step.CommitModelStep? {
      ModelResultKeeps(s, step);
    } else if step.SettleCallStep? || step.CommitToolStep? {
      CallResultKeeps(s, step);
    } else {
      HookResultKeeps(s, step);
    }
    KeptMarked(s, Next(s, step).value);
  }

  lemma ModelResultKeeps(s: Sys, step: Step)
    requires step.CommitModelStep? && Next(s, step).Some?
    ensures var s' := Next(s, step).value; KeepsMarkers(s, s') && s'.facts == s.facts && s.frame != Lost
  {
    hide FreshEntry, FreshProduced, SignalContent, ChargeProduced, CallsPending, AdmitMessageNext, AdmitCompactNext,
      OpenRoundNext, PureRequestHookNext, StopRoundNext, BeginRequestHookNext, CommitRequestHookNext, OpenManualNext,
      BeginMaintenanceNext, CommitMaintenanceNext, CheckpointNext, ManualCheckpointNext, ManualNoneNext, BeginModelNext,
      FinishModelNext, FinishMaintenanceNext, FinishQuietNext, OpenChainNext, PureCallHookNext, BeginCallHookNext,
      CommitCallHookNext, SettleCallNext, BeginToolNext, InvokeNext, CommitToolNext, CompletionNext, LifecycleNext,
      CrashNext, RecoverNext, RestartNext;
  }

  lemma CallResultKeeps(s: Sys, step: Step)
    requires (step.SettleCallStep? || step.CommitToolStep?) && Next(s, step).Some?
    ensures var s' := Next(s, step).value; KeepsMarkers(s, s') && s'.facts == s.facts && s.frame != Lost
  {
    hide OutcomeFollows, Contributed, WithoutIndex, ResultText, HookUnknown, ToolResultEntry, AdmitMessageNext,
      AdmitCompactNext, OpenRoundNext, PureRequestHookNext, StopRoundNext, BeginRequestHookNext, CommitRequestHookNext,
      OpenManualNext, BeginMaintenanceNext, CommitMaintenanceNext, CheckpointNext, ManualCheckpointNext, ManualNoneNext,
      BeginModelNext, CommitModelNext, FinishModelNext, FinishMaintenanceNext, FinishQuietNext, OpenChainNext,
      PureCallHookNext, BeginCallHookNext, CommitCallHookNext, BeginToolNext, InvokeNext, CompletionNext, LifecycleNext,
      CrashNext, RecoverNext, RestartNext;
  }

  lemma HookResultKeeps(s: Sys, step: Step)
    requires (step.CommitRequestHook? || step.CommitCallHook?) && Next(s, step).Some?
    ensures var s' := Next(s, step).value; KeepsMarkers(s, s') && s'.facts == s.facts && s.frame != Lost
  {
    hide HookEntry, AdmitMessageNext, AdmitCompactNext, OpenRoundNext, PureRequestHookNext, StopRoundNext,
      BeginRequestHookNext, OpenManualNext, BeginMaintenanceNext, CommitMaintenanceNext, CheckpointNext,
      ManualCheckpointNext, ManualNoneNext, BeginModelNext, CommitModelNext, FinishModelNext, FinishMaintenanceNext,
      FinishQuietNext, OpenChainNext, PureCallHookNext, BeginCallHookNext, SettleCallNext, BeginToolNext, InvokeNext,
      CommitToolNext, CompletionNext, LifecycleNext, CrashNext, RecoverNext, RestartNext;
  }

  lemma AdmissionMarked(s: Sys, step: Step)
    requires Marked(s) && Next(s, step).Some?
    requires step.AdmitMessageStep? || step.AdmitCompactStep? || step.CompletionStep? || step.LifecycleStep?
    ensures Marked(Next(s, step).value)
  {
    hide FreshEntry, OpenRoundNext, PureRequestHookNext, StopRoundNext, BeginRequestHookNext, CommitRequestHookNext,
      OpenManualNext, BeginMaintenanceNext, CommitMaintenanceNext, CheckpointNext, ManualCheckpointNext, ManualNoneNext,
      BeginModelNext, CommitModelNext, FinishModelNext, FinishMaintenanceNext, FinishQuietNext, OpenChainNext,
      PureCallHookNext, BeginCallHookNext, CommitCallHookNext, SettleCallNext, BeginToolNext, InvokeNext, CommitToolNext,
      CrashNext, RecoverNext, RestartNext;
    var s' := Next(s, step).value;
    assert KeepsMarkers(s, s');
    KeptMarked(s, s');
  }

  /** Every step keeps what a marker stands for. */
  lemma NextMarked(s: Sys, step: Step)
    requires Inv(s) && Marked(s) && Next(s, step).Some?
    ensures Marked(Next(s, step).value)
  {
    hide Inv, Marked, Next;
    if InMemory(step) {
      MemoryMarked(s, step);
    } else if step.CommitMaintenance? {
      NextIsCommit(s, step);
      MaintenanceMarked(s, step.usage);
    } else if IsIntent(step) || step.Invoke? {
      IntentMarked(s, step);
    } else if IsFinish(step) {
      FinishMarked(s, step);
    } else if step.CheckpointStep? || step.ManualCheckpointStep? {
      CheckpointMarked(s, step);
    } else if IsResult(step) {
      ResultMarked(s, step);
    } else {
      AdmissionMarked(s, step);
    }
  }

  lemma MoveMarked(store: Store, move: Move)
    requires forall id :: id in store ==> Good(store[id]) && Marked(store[id])
    requires Apply(store, move).Some?
    ensures forall id :: id in Apply(store, move).value ==> Marked(Apply(store, move).value[id])
  {
    hide Marked, Next, Good, AdmitMessageNext, ForkedSession;
    match move
    case Create(id) => NoOperations(EmptySession());
    case Drive(id, step) =>
      GoodIsInv(store[id]);
      NextMarked(store[id], step);
    case ForkAt(source, id, n, rho, o, entry, text) =>
      var base := ForkedSession(store[source].g, n, rho);
      ForkHasNoOperations(store[source].g, n, rho);
      NoOperations(base);
      AdmissionKeepsMarked(base, o, entry, text);
  }

  lemma ForkHasNoOperations(g: Graph, n: nat, rho: EntryId -> EntryId)
    requires n <= |g.log|
    ensures ForkedSession(g, n, rho).g.ops == map[]
  {
  }

  lemma NoOperations(s: Sys)
    requires s.g.ops == map[]
    ensures Marked(s)
  {
  }

  lemma AdmissionKeepsMarked(s: Sys, o: OpId, entry: EntryId, text: Text)
    requires Marked(s) && AdmitMessageNext(s, o, entry, User, text).Some?
    ensures Marked(AdmitMessageNext(s, o, entry, User, text).value)
  {
    hide FreshEntry;
  }

  /** In every run of the store a raised marker of a settled Operation stands for a loss. */
  lemma {:induction false} EveryRunIsMarked(moves: seq<Move>)
    requires Run(map[], moves).Some?
    ensures forall id :: id in Run(map[], moves).value ==> Marked(Run(map[], moves).value[id])
  {
    hide Marked, Apply, Good;
    if |moves| > 0 {
      EveryRunIsMarked(moves[..|moves| - 1]);
      EveryRunIsGood(moves[..|moves| - 1]);
      MoveMarked(Run(map[], moves[..|moves| - 1]).value, moves[|moves| - 1]);
    }
  }

  /** In every run, the estimate of an Operation that ended in success or failure is known
      exactly when every producer it recorded has a price, and then it is their sum. */
  lemma EndedEstimate(moves: seq<Move>, id: SessionId, o: OpId, rate: Rate)
    requires Run(map[], moves).Some? && id in Run(map[], moves).value
    requires var g := Run(map[], moves).value[id].g; o in g.ops && g.ops[o].status in {Success, Failure}
    ensures var g := Run(map[], moves).value[id].g;
            var prices := PricesOf(Producers(g.log, Some(o)), rate);
            && (OperationEstimate(g, o, rate).Some? <==> None !in prices)
            && (OperationEstimate(g, o, rate).Some? ==> OperationEstimate(g, o, rate).value == SumPrices(prices))
  {
    hide Run, PricesOf, SumPrices, Producers, OperationEstimate;
    EveryRunIsMarked(moves);
    EstimateIsSum(Run(map[], moves).value[id].g, o, rate);
  }
}
