/** Interrupting a Session (harness/context.go, execution.go): the marker, the entry
    guard that consumes it, and the success guard every success publication passes. */
module Interrupts {
  import opened Records
  import opened Validator
  import opened Transactions
  import opened View
  import opened Driver
  import opened Shape
  import opened Exchanges
  import opened Invocations
  import opened History
  import opened Runs

  /** How far the current Operation's execution has come. */
  datatype Phase = Waiting | Entered | Refused

  /** `asked` is the history of Operations an Interrupt saw as current. */
  datatype Control = Control(s: Sys, marker: Option<OpId>, cancelled: bool, phase: Phase, asked: set<OpId>)

  datatype Act =
    | Interrupt(installed: bool)
    | Enter(closed: bool)
    | Do(step: Step)

  predicate Admission(step: Step) {
    step.AdmitMessageStep? || step.AdmitCompactStep?
  }

  /** Steps outside any execution. */
  predicate Outside(step: Step) {
    step.CompletionStep? || step.LifecycleStep? || step.Crash? || step.Recover? || step.Restart?
  }

  predicate PublishesSuccess(step: Step) {
    step.ManualCheckpointStep? || step.ManualNoneStep? || (step.FinishQuietStep? && step.status == Success)
  }

  /** The shared success guard: neither cancellation nor a marker naming this Operation. */
  predicate SuccessAllowed(c: Control) {
    !c.cancelled && !(c.s.g.session.current.Some? && c.marker == c.s.g.session.current)
  }

  /** What an execution may do: a refused one only settles as interruption. */
  predicate Permitted(c: Control, step: Step) {
    if Admission(step) || Outside(step) then true
    else
      && c.phase != Waiting
      && (c.phase == Refused ==> step.FinishQuietStep? && step.status == Interruption)
      && (PublishesSuccess(step) ==> SuccessAllowed(c))
  }

  ghost function Perform(c: Control, act: Act): Option<Control> {
    match act
    case Interrupt(installed) =>
      if c.s.g.session.current.None? then Some(c)
      else Some(c.(marker := c.s.g.session.current, cancelled := c.cancelled || installed,
                   asked := c.asked + {c.s.g.session.current.value}))
    case Enter(closed) =>
      if !Driving(c.s) || c.phase != Waiting then None
      else
        var named := c.marker == Some(Current(c.s));
        Some(c.(phase := if named || closed then Refused else Entered, marker := if named then None else c.marker))
    case Do(step) =>
      if !Permitted(c, step) then None
      else
        var s := Next(c.s, step);
        if s.None? then None
        else if Admission(step) then Some(c.(s := s.value, phase := Waiting, cancelled := false))
        else if step.Crash? then Some(c.(s := s.value, marker := None, cancelled := false))
        else Some(c.(s := s.value))
  }

  ghost function Performs(c: Control, acts: seq<Act>): Option<Control> {
    if |acts| == 0 then Some(c)
    else
      var before := Performs(c, acts[..|acts| - 1]);
      if before.None? then None else Perform(before.value, acts[|acts| - 1])
  }

  /** An interrupted Operation is never in success, and while it runs its marker stands,
      its execution was refused, or its process is gone. */
  ghost predicate Heard(c: Control) {
    && (forall o :: o in c.asked ==> o in c.s.g.ops && c.s.g.ops[o].status != Success)
    && (Driving(c.s) && Current(c.s) in c.asked && c.s.frame != Lost ==>
          c.marker == Some(Current(c.s)) || c.phase == Refused)
  }

  // ---- What each act does -----------------------------------------------------------------

  /** An Interrupt names the current Operation in the marker, remembers it, and cancels the
      run that is installed; with no current Operation it does nothing. */
  lemma InterruptMarks(c: Control, installed: bool)
    ensures Perform(c, Interrupt(installed)).Some?
    ensures var c' := Perform(c, Interrupt(installed)).value;
            && c'.s == c.s && c'.phase == c.phase
            && (c.s.g.session.current.None? ==> c' == c)
            && (c.s.g.session.current.Some? ==>
                  && c'.marker == c.s.g.session.current && c'.asked == c.asked + {c.s.g.session.current.value}
                  && (c'.cancelled <==> c.cancelled || installed))
  {
  }

  /** An execution is entered once; it is refused exactly behind its own marker or a closed
      group, and consumes exactly its own marker. */
  lemma EntryConsumes(c: Control, closed: bool)
    ensures Perform(c, Enter(closed)).Some? <==> Driving(c.s) && c.phase == Waiting
    ensures Driving(c.s) && c.phase == Waiting ==>
              var c' := Perform(c, Enter(closed)).value;
              && c'.s == c.s && c'.cancelled == c.cancelled && c'.asked == c.asked
              && (c'.phase == Refused <==> c.marker == c.s.g.session.current || closed)
              && (c'.phase != Refused ==> c'.phase == Entered)
              && c'.marker == if c.marker == c.s.g.session.current then None else c.marker
  {
  }

  /** Cancellation of an execution lasts until the next admission or the loss of the process. */
  lemma CancelledStays(c: Control, act: Act)
    requires c.cancelled && Perform(c, act).Some? && !Perform(c, act).value.cancelled
    ensures act.Do? && (act.step.AdmitMessageStep? || act.step.AdmitCompactStep? || act.step.Crash?)
  {
    hide Next;
  }

  /** A success is published only by an entered execution that is not cancelled and whose
      Operation no marker names. */
  lemma SuccessIsGuarded(c: Control, step: Step)
    requires Perform(c, Do(step)).Some?
    requires step.ManualCheckpointStep? || step.ManualNoneStep? || (step.FinishQuietStep? && step.status == Success)
    ensures c.phase == Entered && !c.cancelled && (c.s.g.session.current.Some? ==> c.marker != c.s.g.session.current)
  {
    hide Next;
  }

  /** An execution refused at its entry does nothing but settle as interrupted. */
  lemma RefusedOnlyInterrupts(c: Control, step: Step)
    requires Perform(c, Do(step)).Some? && c.phase != Entered
    ensures || step.AdmitMessageStep? || step.AdmitCompactStep? || step.CompletionStep? || step.LifecycleStep?
            || step.Crash? || step.Recover? || step.Restart?
            || (c.phase == Refused && step.FinishQuietStep? && step.status == Interruption)
  {
    hide Next;
  }

  // ---- Who can succeed ------------------------------------------------------------------

  /** Only a success publication puts an Operation in success, and only the current one. */
  lemma SuccessIsPublished(s: Sys, step: Step, o: OpId)
    requires Next(s, step).Some? && o in s.g.ops && s.g.ops[o].status != Success
    requires o in Next(s, step).value.g.ops && Next(s, step).value.g.ops[o].status == Success
    ensures Driving(s) && o == Current(s) && PublishesSuccess(step) && s.frame != Lost
  {
    hide Next, EndingLog;
    if IsFinish(step) {
      FinishSettles(s, step);
      FinishPublishes(s, step);
    } else if IsIntent(step) {
      IntentKeepsStatus(s, step, o);
    } else {
      OthersPublish(s, step, o);
    }
  }

  lemma FinishPublishes(s: Sys, step: Step)
    requires IsFinish(step) && Driving(s) && (step.FinishModelStep? ==> IsModelEffect(Op(s).active))
    ensures EndingOf(s, step).status == Success && Next(s, step).Some? ==> PublishesSuccess(step) && s.frame != Lost
  {
    hide FreshEntry, ProducedBy, RECOVERY_DETAIL, Settle, AdmitMessageNext, AdmitCompactNext, OpenRoundNext,
      PureRequestHookNext, StopRoundNext, BeginRequestHookNext, CommitRequestHookNext, OpenManualNext, BeginMaintenanceNext,
      CommitMaintenanceNext, CheckpointNext, ManualCheckpointNext, BeginModelNext, CommitModelNext, OpenChainNext,
      PureCallHookNext, BeginCallHookNext, CommitCallHookNext, SettleCallNext, BeginToolNext, InvokeNext, CommitToolNext,
      CompletionNext, LifecycleNext, CrashNext, RestartNext;
  }

  lemma IntentKeepsStatus(s: Sys, step: Step, o: OpId)
    requires IsIntent(step) && Next(s, step).Some? && o in s.g.ops
    ensures o in Next(s, step).value.g.ops && Next(s, step).value.g.ops[o].status == s.g.ops[o].status
  {
    hide FreshEntry, FreshRequest, RoundEvidence, AdmitMessageNext, AdmitCompactNext, OpenRoundNext, PureRequestHookNext,
      StopRoundNext, CommitRequestHookNext, OpenManualNext, CheckpointNext, ManualCheckpointNext, ManualNoneNext,
      CommitModelNext, FinishModelNext, FinishMaintenanceNext, FinishQuietNext, OpenChainNext, PureCallHookNext,
      CommitCallHookNext, SettleCallNext, InvokeNext, CommitToolNext, CompletionNext, LifecycleNext, CrashNext, RecoverNext,
      RestartNext;
  }

  lemma OthersPublish(s: Sys, step: Step, o: OpId)
    requires !IsFinish(step) && !IsIntent(step) && Next(s, step).Some? && o in s.g.ops && s.g.ops[o].status != Success
    requires o in Next(s, step).value.g.ops && Next(s, step).value.g.ops[o].status == Success
    ensures Driving(s) && o == Current(s) && PublishesSuccess(step) && s.frame != Lost
  {
    hide FreshEntry, FreshRequest, EndingLog, SafeCut, CoveredBoundary, RebuiltPaired, ProducedBy, RebuiltBoundary,
      SignalContent, ResultText, CallsPending, ChargeProduced, RoundEvidence, BeginRequestHookNext, BeginMaintenanceNext,
      CommitMaintenanceNext, BeginModelNext, BeginCallHookNext, BeginToolNext, ManualNoneNext, FinishModelNext,
      FinishMaintenanceNext, FinishQuietNext, RecoverNext;
  }

  /** The register of the current Operation after a step that keeps it running. */
  lemma FrameAfter(s: Sys, step: Step)
    requires Next(s, step).Some? && s.frame == Lost && !step.Restart?
    ensures step.CompletionStep? || step.Crash? || step.Recover?
    ensures Next(s, step).value.frame == Lost
  {
    hide FreshEntry, FreshRequest, EndingLog, ProposalValid, RebuiltPaired, ProducedBy;
  }

  lemma CurrentStays(s: Sys, step: Step)
    requires Good(s) && Next(s, step).Some? && !Admission(step) && Driving(Next(s, step).value)
    ensures Driving(s) && Current(s) == Current(Next(s, step).value)
  {
    hide Good, Next;
    var s' := Next(s, step).value;
    RecordsGrow(s, step);
    AdmitsOnlyOnAdmission(s, step);
    DrivenWhenCurrent(s);
  }

  lemma DrivenWhenCurrent(s: Sys)
    requires Good(s)
    ensures s.g.session.current.Some? ==> Driving(s)
  {
    hide Accepted, Disciplined, Exchanging, Honest;
  }

  /** Without a driven Operation, no step but an admission touches a register. */
  lemma IdleKeepsOps(s: Sys, step: Step)
    requires Next(s, step).Some? && !Admission(step) && !Driving(s)
    ensures Next(s, step).value.g.ops == s.g.ops
  {
    hide FreshEntry, FreshRequest, Settle, ProposalValid, RebuiltPaired, ProducedBy, CommitCheckpoint;
  }

  lemma AdmitsOnlyOnAdmission(s: Sys, step: Step)
    requires Next(s, step).Some? && !Admission(step)
    ensures Next(s, step).value.g.ops.Keys == s.g.ops.Keys
  {
    hide Next;
    if Driving(s) {
      RecordsGrow(s, step);
    } else {
      IdleKeepsOps(s, step);
    }
  }

  lemma DoKeepsHeard(c: Control, step: Step)
    requires Good(c.s) && Heard(c) && Perform(c, Do(step)).Some?
    ensures Heard(Perform(c, Do(step)).value)
  {
    hide Good, Next;
    var c' := Perform(c, Do(step)).value;
    RecordsGrow(c.s, step);
    forall o | o in c'.asked ensures o in c'.s.g.ops && c'.s.g.ops[o].status != Success {
      StillThere(c.s, step, o);
      if c'.s.g.ops[o].status == Success {
        SuccessIsPublished(c.s, step, o);
      }
    }
    if Driving(c'.s) && Current(c'.s) in c'.asked && c'.s.frame != Lost {
      if Admission(step) {
        NewIsUnasked(c, step);
      } else {
        CurrentStays(c.s, step);
        NotRestarting(c.s, step);
      }
    }
  }

  lemma StillThere(s: Sys, step: Step, o: OpId)
    requires Next(s, step).Some? && o in s.g.ops
    ensures o in Next(s, step).value.g.ops
  {
    hide Next;
    RecordsGrow(s, step);
  }

  lemma NewIsUnasked(c: Control, step: Step)
    requires Admission(step) && Next(c.s, step).Some? && Heard(c)
    ensures Driving(Next(c.s, step).value) && Current(Next(c.s, step).value) !in c.asked
  {
  }

  lemma NotRestarting(s: Sys, step: Step)
    requires Next(s, step).Some? && Driving(s) && Driving(Next(s, step).value) && Next(s, step).value.frame != Lost
    ensures s.frame != Lost && !step.Crash?
  {
    hide FreshEntry, FreshRequest, EndingLog, ProposalValid, RebuiltPaired, ProducedBy;
    if s.frame == Lost && !step.Restart? {
      FrameAfter(s, step);
    }
  }

  lemma PerformIsGood(c: Control, act: Act)
    requires Good(c.s) && Perform(c, act).Some?
    ensures Good(Perform(c, act).value.s)
  {
    hide Good, Next;
    if act.Do? {
      StepIsGood(c.s, act.step);
    }
  }

  /** Once an Interrupt has seen an Operation as current, no later state of any run has
      it in success: not after the marker is consumed at entry, not through manual
      compaction, not after a crash and recovery. */
  lemma {:induction false} InterruptedNeverSucceeds(c: Control, acts: seq<Act>)
    requires Good(c.s) && Heard(c) && Performs(c, acts).Some?
    ensures Good(Performs(c, acts).value.s) && Heard(Performs(c, acts).value)
    ensures c.asked <= Performs(c, acts).value.asked
  {
    hide Good, Next;
    if |acts| > 0 {
      var n := |acts| - 1;
      InterruptedNeverSucceeds(c, acts[..n]);
      var before := Performs(c, acts[..n]).value;
      PerformIsGood(before, acts[n]);
      if acts[n].Do? {
        DoKeepsHeard(before, acts[n].step);
      } else {
        MarkKeepsHeard(before, acts[n]);
      }
    }
  }

  lemma MarkKeepsHeard(c: Control, act: Act)
    requires Good(c.s) && Heard(c) && !act.Do? && Perform(c, act).Some?
    ensures Heard(Perform(c, act).value) && c.asked <= Perform(c, act).value.asked
  {
    hide Good;
    DrivenWhenCurrent(c.s);
  }
}
