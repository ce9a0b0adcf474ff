/** Every callback with action authority is invoked at most once, and only under its
    committed intent; what recovery reports about it is never more than is known. */
module Invocations {
  import opened Records
  import opened Validator
  import opened Transactions
  import opened LogLemmas
  import opened Growth
  import opened Appends
  import opened Settling
  import opened Commits
  import opened View
  import opened Driver
  import opened Discipline
  import opened Shape

  ghost predicate CallAnswered(log: seq<Entry>, o: OpId, c: CallId) {
    exists j :: 0 <= j < |log| && AnswersCall(log[j], o, c)
  }

  ghost predicate HookRan(log: seq<Entry>, o: OpId, b: Binding, h: HookId) {
    exists j :: 0 <= j < |log| && IsHookResult(log[j], o, b) && log[j].body.hook == h
  }

  /** The invocation's consequence is committed. */
  ghost predicate Recorded(log: seq<Entry>, i: Invocation) {
    match i
    case Executed(o, c) => CallAnswered(log, o, c)
    case Ran(o, b, h) => HookRan(log, o, b, h)
    case Requested(_, _) => true
  }

  /** The invocation belongs to the effect whose intent is still committed. */
  predicate Live(s: Sys, i: Invocation) {
    Driving(s) && s.started && Op(s).active.Some? && InvocationOf(Current(s), Op(s).active.value) == i
  }

  /** The conversation request whose model callback is running. */
  predicate Conversing(s: Sys, r: RequestId) {
    Driving(s) && s.started && Op(s).active.Some? && Op(s).active.value.ConversationEffect? &&
    Op(s).active.value.request == r
  }

  predicate Maintaining(s: Sys) {
    Driving(s) && s.frame != Lost && Op(s).active.Some? && Op(s).active.value.MaintenanceEffect?
  }

  ghost predicate Unrequested(invoked: seq<Invocation>, r: RequestId) {
    forall k :: 0 <= k < |invoked| ==> !(invoked[k].Requested? && invoked[k].request == r)
  }

  /** A request not yet dispatched has never been dispatched. */
  ghost predicate PendingRequestsNew(s: Sys) {
    && (s.frame.Rounding? ==> Unrequested(s.invoked, s.frame.request) || Conversing(s, s.frame.request))
    && (Maintaining(s) && !s.started ==> Unrequested(s.invoked, Op(s).active.value.request))
    && (Maintaining(s) && s.frame.Rounding? ==> Op(s).active.value.request != s.frame.request)
  }

  /** A result that says its call never started, of a call whose executor was invoked,
      is that executor's own report. */
  ghost predicate NotStartedHonest(s: Sys) {
    forall j, o, c :: 0 <= j < |s.g.log| && AnswersCall(s.g.log[j], o, c) &&
                      s.g.log[j].body.knowledge == NotStarted && Executed(o, c) in s.invoked ==>
                        s.g.log[j].id in s.reported
  }

  ghost predicate AtMostOnce(s: Sys) {
    forall i, j :: 0 <= i < j < |s.invoked| ==> s.invoked[i] != s.invoked[j]
  }

  ghost predicate Accounted(s: Sys) {
    forall i :: i in s.invoked ==> Recorded(s.g.log, i) || Live(s, i)
  }

  ghost predicate Honest(s: Sys) {
    AtMostOnce(s) && Accounted(s) && PendingRequestsNew(s) && NotStartedHonest(s)
  }

  // ---- Logs only grow ---------------------------------------------------------------

  lemma RecordedGrows(log: seq<Entry>, es: seq<Entry>, i: Invocation)
    requires Recorded(log, i)
    ensures Recorded(log + es, i)
  {
    var log' := log + es;
    match i
    case Executed(o, c) =>
      var j :| 0 <= j < |log| && AnswersCall(log[j], o, c);
      assert log'[j] == log[j];
    case Ran(o, b, h) =>
      var j :| 0 <= j < |log| && IsHookResult(log[j], o, b) && log[j].body.hook == h;
      assert log'[j] == log[j];
    case Requested(_, _) =>
  }

  /** A pending call has not been executed unless its own effect is live. */
  lemma PendingNotExecuted(s: Sys, p: Pending)
    requires Inv(s) && Accounted(s) && Driving(s) && p in Op(s).pending
    ensures !CallAnswered(s.g.log, Current(s), p.call)
    ensures Executed(Current(s), p.call) in s.invoked ==> Live(s, Executed(Current(s), p.call))
  {
    hide LogFits, LogConsistent, OperationsAgree, SafeCut, FrameOk;
    OnlyRunning(s.g, Current(s));
    InUnresolved(Published(s.g.log, Current(s)), s.g.log, Current(s), p);
    CountWitness(s.g.log, Current(s), p.call);
  }

  // ---- Invoking --------------------------------------------------------------------------

  /** The effect about to be invoked has not been invoked before. */
  lemma InvocationIsNew(s: Sys)
    requires Inv(s) && Honest(s) && InvokeNext(s).Some?
    ensures InvocationOf(Current(s), Op(s).active.value) !in s.invoked
  {
    hide Inv, Accounted, PendingRequestsNew, NotStartedHonest, AtMostOnce;
    match Op(s).active.value
    case ConversationEffect(_, _, _, _) => RequestIsNew(s);
    case MaintenanceEffect(_, _, _) => RequestIsNew(s);
    case ToolEffect(_, _, _) => ToolIsNew(s);
    case _ => HookIsNew(s);
  }

  lemma RequestIsNew(s: Sys)
    requires Inv(s) && PendingRequestsNew(s) && InvokeNext(s).Some? && IsModelEffect(Op(s).active)
    ensures InvocationOf(Current(s), Op(s).active.value) !in s.invoked
  {
    hide Accepted, FactsFit, RoundLogOk, CompactQuiet;
  }

  lemma ToolIsNew(s: Sys)
    requires Inv(s) && Accounted(s) && InvokeNext(s).Some? && Op(s).active.value.ToolEffect?
    ensures InvocationOf(Current(s), Op(s).active.value) !in s.invoked
  {
    hide LogFits, LogConsistent, OperationsAgree, FrameOk, Recorded;
    OnlyRunning(s.g, Current(s));
    assert EffectShape(Op(s), Op(s).active.value);
    assert Op(s).pending[0] in Op(s).pending;
    PendingNotExecuted(s, Op(s).pending[0]);
  }

  lemma HookIsNew(s: Sys)
    requires Inv(s) && Accounted(s) && InvokeNext(s).Some? && IsHookEffect(Op(s).active.value)
    ensures InvocationOf(Current(s), Op(s).active.value) !in s.invoked
  {
    hide LogFits, LogConsistent, OperationsAgree, SafeCut, FrameOk;
    var o, effect := Current(s), Op(s).active.value;
    OnlyRunning(s.g, o);
    assert EffectAgrees(s.g.log, o, Op(s), effect);
    if effect.CallHookEffect? {
      InHooks(s.g.log, o, ForCall(effect.call), effect.hook);
    } else {
      InHooks(s.g.log, o, ForRequest(effect.request), effect.hook);
    }
  }

  lemma InvokeHonest(s: Sys)
    requires Inv(s) && Honest(s) && InvokeNext(s).Some?
    ensures Honest(InvokeNext(s).value)
  {
    hide Inv;
    var s' := InvokeNext(s).value;
    var i := InvocationOf(Current(s), Op(s).active.value);
    InvocationIsNew(s);
    InvokedFrame(s);
    assert AtMostOnce(s');
    forall x | x in s'.invoked ensures Recorded(s'.g.log, x) || Live(s', x) {
      if x in s.invoked {
        assert !s.started;
      }
    }
    NoReportYet(s, s');
  }

  /** In a round only the round's own request is dispatched once its effect is live. */
  lemma InvokedFrame(s: Sys)
    requires Inv(s) && Honest(s) && InvokeNext(s).Some?
    ensures PendingRequestsNew(InvokeNext(s).value)
  {
    hide Accepted, FactsFit, RoundLogOk, ChainLogOk, CompactQuiet, AtMostOnce, Accounted, NotStartedHonest;
    var s' := InvokeNext(s).value;
    var i := InvocationOf(Current(s), Op(s).active.value);
    if s.frame.Rounding? && !Conversing(s', s.frame.request) {
      assert Unrequested(s.invoked, s.frame.request);
      assert !(i.Requested? && i.request == s.frame.request);
    }
  }

  lemma NoReportYet(s: Sys, s': Sys)
    requires Inv(s) && Honest(s) && InvokeNext(s) == Some(s')
    ensures NotStartedHonest(s')
  {
    hide AtMostOnce, PendingRequestsNew;
    var i := InvocationOf(Current(s), Op(s).active.value);
    if i.Executed? {
      LiveToolUnanswered(s);
    }
  }

  lemma LiveToolUnanswered(s: Sys)
    requires Inv(s) && Driving(s) && Op(s).active.Some? && Op(s).active.value.ToolEffect?
    ensures !CallAnswered(s.g.log, Current(s), Op(s).active.value.call)
  {
    hide LogFits, LogConsistent, OperationsAgree, SafeCut, FrameOk;
    var o := Current(s);
    OnlyRunning(s.g, o);
    var p := Op(s).pending[0];
    assert EffectShape(Op(s), Op(s).active.value);
    InUnresolved(Published(s.g.log, o), s.g.log, o, p);
    CountWitness(s.g.log, o, p.call);
  }

  // ---- Committing ---------------------------------------------------------------------------

  /** Nothing new claims that an executed call never started. */
  ghost predicate HonestEntries(s: Sys, es: seq<Entry>) {
    forall j, o, c :: 0 <= j < |es| && AnswersCall(es[j], o, c) && es[j].body.knowledge == NotStarted ==>
                        Executed(o, c) !in s.invoked
  }

  lemma HonestGrows(s: Sys, s': Sys, es: seq<Entry>)
    requires NotStartedHonest(s) && s'.invoked == s.invoked && s.reported <= s'.reported && s'.g.log == s.g.log + es
    requires HonestEntries(s, es)
    ensures NotStartedHonest(s')
  {
    assert forall j :: |s.g.log| <= j < |s'.g.log| ==> s'.g.log[j] == es[j - |s.g.log|];
    forall j, o, c | 0 <= j < |s'.g.log| && AnswersCall(s'.g.log[j], o, c) &&
                     s'.g.log[j].body.knowledge == NotStarted && Executed(o, c) in s'.invoked
      ensures s'.g.log[j].id in s'.reported
    {
      if j < |s.g.log| {
        assert s'.g.log[j] == s.g.log[j];
      }
    }
  }

  /** A step that invokes nothing: what was live stays live or is now recorded. */
  lemma Carries(s: Sys, s': Sys, es: seq<Entry>)
    requires Honest(s) && s'.invoked == s.invoked && s.reported <= s'.reported && s'.g.log == s.g.log + es
    requires forall i :: i in s.invoked && Live(s, i) ==> Recorded(s'.g.log, i) || Live(s', i)
    requires HonestEntries(s, es) && PendingRequestsNew(s')
    ensures Honest(s')
  {
    hide PendingRequestsNew, Recorded, Live, HonestEntries;
    HonestGrows(s, s', es);
    forall i | i in s'.invoked ensures Recorded(s'.g.log, i) || Live(s', i) {
      if Recorded(s.g.log, i) {
        RecordedGrows(s.g.log, es, i);
      }
    }
  }

  // ---- Steps in memory -------------------------------------------------------------------------

  /** A step that leaves the records and the invocation history alone. */
  lemma UnmovedHonest(s: Sys, s': Sys)
    requires Honest(s) && s'.g == s.g && s'.invoked == s.invoked && s'.started == s.started && s'.reported == s.reported
    requires PendingRequestsNew(s')
    ensures Honest(s')
  {
    hide PendingRequestsNew;
    assert s.g.log + [] == s.g.log;
    Carries(s, s', []);
  }

  predicate InMemory(step: Step) {
    step.OpenRound? || step.PureRequestHook? || step.StopRound? || step.OpenManual? || step.OpenChain? ||
    step.PureCallHook? || step.Crash? || step.Restart?
  }

  lemma MemoryHonest(s: Sys, step: Step)
    requires Inv(s) && Honest(s) && InMemory(step) && Next(s, step).Some?
    ensures Honest(Next(s, step).value)
  {
    hide Accepted, FactsFit, RoundLogOk, ChainLogOk, CompactQuiet, AtMostOnce, Accounted, NotStartedHonest;
    var s' := Next(s, step).value;
    assert s'.g == s.g && s'.invoked == s.invoked && s'.started == s.started;
    UnmovedHonest(s, s');
  }

  /** An intent starts from an effect-free register, or closes a maintenance effect. */
  lemma IntentFindsNothingLive(s: Sys, step: Step)
    requires IsIntent(step) && Next(s, step).Some?
    ensures forall i :: Live(s, i) ==> i.Requested?
    ensures var s' := Next(s, step).value;
            s'.g.log == s.g.log && s'.invoked == s.invoked && s'.reported == s.reported
  {
    hide FreshEntry, FreshRequest, RoundEvidence;
  }

  lemma IntentKeepsRequests(s: Sys, step: Step)
    requires Inv(s) && PendingRequestsNew(s) && IsIntent(step) && Next(s, step).Some?
    ensures PendingRequestsNew(Next(s, step).value)
  {
    hide Accepted, FactsFit, RoundLogOk, ChainLogOk, CompactQuiet, FreshEntry, RoundEvidence, Contributed, NextHook;
  }

  lemma IntentHonest(s: Sys, step: Step)
    requires Inv(s) && Honest(s) && IsIntent(step) && Next(s, step).Some?
    ensures Honest(Next(s, step).value)
  {
    hide Inv, Next, PendingRequestsNew, AtMostOnce, Accounted, NotStartedHonest, Live;
    var s' := Next(s, step).value;
    IntentFindsNothingLive(s, step);
    IntentKeepsRequests(s, step);
    assert s'.g.log == s.g.log + [];
    Carries(s, s', []);
  }

  // ---- Results ---------------------------------------------------------------------------------

  lemma HookResultHonest(s: Sys, step: Step)
    requires Inv(s) && Honest(s) && (step.CommitRequestHook? || step.CommitCallHook?) && Next(s, step).Some?
    ensures Honest(Next(s, step).value)
  {
    hide Accepted, FactsFit, RoundLogOk, ChainLogOk, CompactQuiet, AtMostOnce, Accounted, NotStartedHonest;
    var s' := Next(s, step).value;
    var effect := Op(s).active.value;
    var e := HookEntry(Current(s), effect, step.outcome, step.knowledge);
    assert s'.g.log == s.g.log + [e];
    assert s'.g.log[|s.g.log|] == e;
    assert Recorded(s'.g.log, InvocationOf(Current(s), effect));
    Carries(s, s', [e]);
  }

  lemma ModelResultHonest(s: Sys, step: Step)
    requires Inv(s) && Honest(s) && step.CommitModelStep? && Next(s, step).Some?
    ensures Honest(Next(s, step).value)
  {
    hide Accepted, FactsFit, RoundLogOk, ChainLogOk, CompactQuiet, AtMostOnce, Accounted, NotStartedHonest, FreshProduced, FreshEntry;
    var s' := Next(s, step).value;
    var es := ModelResultEntries(Current(s), step.produced, step.continuation);
    assert s'.g.log == s.g.log + es;
    Carries(s, s', es);
  }

  /** A settled call was executed only under the effect this result closes. */
  lemma CallResultHonest(s: Sys, step: Step)
    requires Inv(s) && Honest(s) && (step.SettleCallStep? || step.CommitToolStep?) && Next(s, step).Some?
    ensures Honest(Next(s, step).value)
  {
    hide Accepted, FactsFit, RoundLogOk, ChainLogOk, CompactQuiet, AtMostOnce, Reconciles, WithoutIndex, Contributed, OutcomeFollows;
    var s' := Next(s, step).value;
    var p := Op(s).pending[0];
    assert p in Op(s).pending && p.call == s.frame.call;
    PendingNotExecuted(s, p);
    var e := s'.g.log[|s.g.log|];
    assert s'.g.log == s.g.log + [e] && AnswersCall(e, Current(s), p.call);
    assert CallAnswered(s'.g.log, Current(s), p.call);
    if step.CommitToolStep? && s.started && e.body.knowledge == NotStarted {
      ReportedHonest(s, s', e);
    } else {
      Carries(s, s', [e]);
    }
  }

  /** The executor's own report may say the action never started. */
  lemma ReportedHonest(s: Sys, s': Sys, e: Entry)
    requires Honest(s) && Driving(s) && s'.invoked == s.invoked && s'.g.log == s.g.log + [e]
    requires s'.reported == s.reported + {e.id} && s'.frame == Idle && !Maintaining(s')
    requires Op(s).active.Some? && Op(s).active.value.ToolEffect? && AnswersCall(e, Current(s), Op(s).active.value.call)
    ensures Honest(s')
  {
    assert s'.g.log[|s.g.log|] == e;
    forall i | i in s'.invoked ensures Recorded(s'.g.log, i) {
      if Recorded(s.g.log, i) {
        RecordedGrows(s.g.log, [e], i);
      } else {
        assert AnswersCall(s'.g.log[|s.g.log|], Current(s), Op(s).active.value.call);
      }
    }
    forall j, o, c | 0 <= j < |s'.g.log| && AnswersCall(s'.g.log[j], o, c) &&
                     s'.g.log[j].body.knowledge == NotStarted && Executed(o, c) in s'.invoked
      ensures s'.g.log[j].id in s'.reported
    {
      if j < |s.g.log| {
        assert s'.g.log[j] == s.g.log[j];
      }
    }
  }

  // ---- Settlements --------------------------------------------------------------------------------

  /** The live effect of a settled Operation is recorded by the settlement. */
  lemma SettlementRecords(s: Sys, e: Ending, log': seq<Entry>)
    requires Inv(s) && Driving(s) && Op(s).active.Some? && log' == EndingLog(s.g.log, Current(s), Op(s), e)
    requires IsHookEffect(Op(s).active.value) ==> e.assistant.None?
    ensures Recorded(log', InvocationOf(Current(s), Op(s).active.value))
  {
    hide LogFits, LogConsistent, OperationsAgree, SafeCut, FrameOk, Reconciles;
    var o, op, effect := Current(s), Op(s), Op(s).active.value;
    OnlyRunning(s.g, o);
    assert EffectShape(op, effect);
    var opening := EndingOpening(s.g.log, o, op, e);
    if effect.ToolEffect? {
      var x := InterruptedEntry(opening, o, op.active, op.pending[0]);
      assert log'[|opening|] == x;
      assert AnswersCall(log'[|opening|], o, effect.call);
    } else if IsHookEffect(effect) {
      assert log'[|s.g.log|] == HookEntry(o, effect, HookInterrupted, Unknown);
    }
  }

  lemma SettlementHonest(s: Sys, e: Ending)
    requires Inv(s) && Honest(s) && Driving(s)
    requires e.assistant.Some? ==> Op(s).active.Some? && Op(s).active.value.ConversationEffect? && FreshProduced(s.g, Current(s), e.assistant.value)
    ensures HonestEntries(s, EndingEntries(s.g.log, Current(s), Op(s), e))
  {
    hide Inv, PendingRequestsNew, AtMostOnce, NotStartedHonest;
    var o, op := Current(s), Op(s);
    var opening := EndingOpening(s.g.log, o, op, e);
    var es := EndingEntries(s.g.log, o, op, e);
    forall j, q, c | 0 <= j < |es| && AnswersCall(es[j], q, c) && es[j].body.knowledge == NotStarted
      ensures Executed(q, c) !in s.invoked
    {
      var k := ResultEntryOf(s.g.log, o, op, e, j);
      var p := Remaining(op, o, e)[k];
      if p in op.pending {
        PendingNotExecuted(s, p);
      } else {
        NewCallNotExecuted(s, e.assistant.value, p);
      }
    }
  }

  /** The results a settlement writes are the interrupted ones, call by call. */
  lemma ResultEntryOf(log: seq<Entry>, o: OpId, op: Operation, e: Ending, j: int) returns (k: nat)
    requires 0 <= j < |EndingEntries(log, o, op, e)| && EndingEntries(log, o, op, e)[j].body.ToolResult?
    ensures k < |Remaining(op, o, e)|
    ensures EndingEntries(log, o, op, e)[j] == InterruptedEntry(EndingOpening(log, o, op, e), o, op.active, Remaining(op, o, e)[k])
  {
    hide InterruptedEntry, AssistantEntries, HookRemnant, SignalPart, SettlementEntry, EndingOpening, Remaining;
    NoResultsAside(o, op, e);
    var front := AssistantEntries(o, e.assistant) + HookRemnant(o, op.active);
    var calls := Remaining(op, o, e);
    var middle := InterruptedEntries(EndingOpening(log, o, op, e), o, op.active, calls);
    var tail := SignalPart(o, e) + [SettlementEntry(o, op, e)];
    assert EndingEntries(log, o, op, e) == front + middle + tail;
    k := j - |front|;
  }

  lemma NoResultsAside(o: OpId, op: Operation, e: Ending)
    ensures forall x :: x in AssistantEntries(o, e.assistant) || x in HookRemnant(o, op.active) || x in SignalPart(o, e) ==>
              !x.body.ToolResult?
    ensures !SettlementEntry(o, op, e).body.ToolResult?
  {
  }

  lemma NewCallNotExecuted(s: Sys, a: Produced, p: Pending)
    requires Inv(s) && Accounted(s) && Driving(s) && FreshProduced(s.g, Current(s), a)
    requires Op(s).active.Some? && Op(s).active.value.ConversationEffect?
    requires p in CallsPending(Current(s), Some(a))
    ensures Executed(Current(s), p.call) !in s.invoked
  {
    hide LogFits, LogConsistent, OperationsAgree, SafeCut, FrameOk;
    var k :| 0 <= k < |a.calls| && a.calls[k].id == p.call;
    assert !PublishesCall(s.g.log, Current(s), p.call);
    UnpublishedIsUnanswered(s.g, Current(s), p.call);
  }

  lemma UnpublishedIsUnanswered(g: Graph, o: OpId, c: CallId)
    requires Accepted(g) && !PublishesCall(g.log, o, c)
    ensures !CallAnswered(g.log, o, c)
  {
    OnlyPublishedAnswered(g.log, o, c);
    CountWitness(g.log, o, c);
  }

  lemma FinishHonest(s: Sys, step: Step)
    requires Inv(s) && Honest(s) && IsFinish(step) && Next(s, step).Some?
    ensures Honest(Next(s, step).value)
  {
    hide Inv, AtMostOnce, Accounted, NotStartedHonest, EndingLog, EndingEntries, FreshEntry, FreshProduced, Recorded, HonestEntries, ProcedureCarrier;
    var s' := Next(s, step).value;
    FinishSettles(s, step);
    var e := EndingOf(s, step);
    FinishProduces(s, step);
    EndingLogSplits(s.g.log, Current(s), Op(s), e);
    if Op(s).active.Some? {
      SettlementRecords(s, e, s'.g.log);
    }
    SettlementHonest(s, e);
    Carries(s, s', EndingEntries(s.g.log, Current(s), Op(s), e));
  }

  lemma FinishProduces(s: Sys, step: Step)
    requires IsFinish(step) && Next(s, step).Some?
    ensures Driving(s) && (step.FinishModelStep? ==> IsModelEffect(Op(s).active))
    ensures var e := EndingOf(s, step);
            && (e.assistant.Some? ==> Op(s).active.Some? && Op(s).active.value.ConversationEffect? &&
                                      FreshProduced(s.g, Current(s), e.assistant.value))
            && (Op(s).active.Some? && IsHookEffect(Op(s).active.value) ==> e.assistant.None?)
  {
    hide FreshEntry, EndingLog, FreshProduced;
  }

  lemma CheckpointHonest(s: Sys, step: Step)
    requires Inv(s) && Honest(s) && step.CheckpointStep? && Next(s, step).Some?
    ensures Honest(Next(s, step).value)
  {
    hide Inv, AtMostOnce, Accounted, NotStartedHonest, ProposalValid, RebuiltPaired, FreshEntry;
    var s' := Next(s, step).value;
    var e := s'.g.log[|s.g.log|];
    assert s'.g.log == s.g.log + [e] && e.body.Checkpoint?;
    Carries(s, s', [e]);
  }

  /** With nothing pending a settlement writes no result. */
  lemma NoResults(log: seq<Entry>, o: OpId, op: Operation, e: Ending)
    requires op.pending == [] && e.assistant.None?
    ensures forall j :: 0 <= j < |EndingEntries(log, o, op, e)| ==> !EndingEntries(log, o, op, e)[j].body.ToolResult?
  {
    var es := EndingEntries(log, o, op, e);
    assert Remaining(op, o, e) == [];
    assert es == HookRemnant(o, op.active) + (SignalPart(o, e) + [SettlementEntry(o, op, e)]);
  }

  /** The entries of a manual checkpoint and its settlement. */
  lemma ManualCheckpointEntries(s: Sys, step: Step) returns (es: seq<Entry>)
    requires Inv(s) && step.ManualCheckpointStep? && Next(s, step).Some?
    ensures Next(s, step).value.g.log == s.g.log + es && forall j :: 0 <= j < |es| ==> !es[j].body.ToolResult?
  {
    hide Accepted, FactsFit, SafeCut, CoveredBoundary, RebuiltPaired, FreshEntry, EndingEntries, EndedOperation, RebuiltBoundary;
    var o := Current(s);
    var plan := Plan(step.id, step.messages, step.boundary, Evidence(s.frame.checkpoint, s.frame.tail.value, []));
    var mid := CommitCheckpoint(s.g, o, plan, ProcedureCarrier(s, step.producer)).value;
    var e := SuccessEnding(None, step.settlement, step.signal);
    EndingLogSplits(mid.log, o, mid.ops[o], e);
    NoResults(mid.log, o, mid.ops[o], e);
    es := [CheckpointEntry(o, plan, ProcedureCarrier(s, step.producer))] + EndingEntries(mid.log, o, mid.ops[o], e);
    assert Next(s, step).value.g.log == s.g.log + es;
  }

  /** A manual procedure runs no call and no hook, so its settlement interrupts nothing. */
  lemma ManualCheckpointHonest(s: Sys, step: Step)
    requires Inv(s) && Honest(s) && step.ManualCheckpointStep? && Next(s, step).Some?
    ensures Honest(Next(s, step).value)
  {
    hide Inv, AtMostOnce, Accounted, NotStartedHonest, SafeCut, CoveredBoundary, RebuiltPaired, FreshEntry, Settle, CommitCheckpoint;
    var es := ManualCheckpointEntries(s, step);
    ManualCheckpointIsQuiet(s, step);
    Carries(s, Next(s, step).value, es);
  }

  lemma ManualCheckpointIsQuiet(s: Sys, step: Step)
    requires step.ManualCheckpointStep? && Next(s, step).Some?
    ensures forall i :: !Live(s, i)
    ensures var s' := Next(s, step).value;
            s'.frame == Idle && !Maintaining(s') && s'.invoked == s.invoked && s'.reported == s.reported
  {
    hide SafeCut, CoveredBoundary, RebuiltPaired, FreshEntry, EndingLog, CommitCheckpoint;
  }

  lemma AdmissionHonest(s: Sys, step: Step)
    requires Inv(s) && Honest(s) && Next(s, step).Some?
    requires step.AdmitMessageStep? || step.AdmitCompactStep? || step.CompletionStep? || step.LifecycleStep?
    ensures Honest(Next(s, step).value)
  {
    hide Accepted, FactsFit, AtMostOnce, Accounted, NotStartedHonest, FreshEntry, FrameOk;
    var s' := Next(s, step).value;
    assert s.g.log + [] == s.g.log;
    var es := s'.g.log[|s.g.log|..];
    assert s'.g.log == s.g.log + es;
    Carries(s, s', es);
  }

  /** In every step each callback is invoked at most once, under its committed intent. */
  lemma NextHonest(s: Sys, step: Step)
    requires Inv(s) && Honest(s) && Next(s, step).Some?
    ensures Honest(Next(s, step).value)
  {
    hide Inv, Honest;
    if InMemory(step) {
      MemoryHonest(s, step);
    } else if IsIntent(step) {
      IntentHonest(s, step);
    } else if IsFinish(step) {
      FinishHonest(s, step);
    } else if step.Invoke? {
      InvokeHonest(s);
    } else if step.CheckpointStep? {
      CheckpointHonest(s, step);
    } else if step.ManualCheckpointStep? {
      ManualCheckpointHonest(s, step);
    } else if step.CommitRequestHook? || step.CommitCallHook? {
      HookResultHonest(s, step);
    } else if step.CommitModelStep? {
      ModelResultHonest(s, step);
    } else if step.SettleCallStep? || step.CommitToolStep? {
      CallResultHonest(s, step);
    } else {
      AdmissionHonest(s, step);
    }
  }
}
