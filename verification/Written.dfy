/** What each of the driver's steps writes (harness/effect.go, compact.go, context.go,
    execution.go): which transaction it performs and, field by field, what it hands to it from
    the driver's memory and from what it received. */
module Written {
  import opened Records
  import opened Validator
  import opened Transactions
  import opened View
  import opened Driver
  import opened Shape
  import opened Notices
  import opened Contents

  // ---- What a round or a procedure consumed ------------------------------------------------

  /** The frozen references, and every hook of the plan that has contributed, pure or not, in order. */
  predicate IsRoundEvidence(ev: Evidence, f: Frame)
    requires f.Rounding?
  {
    && ev.checkpoint == f.checkpoint && ev.boundary == f.boundary && IsContributed(ev.hooks, f.plan, f.done)
  }

  predicate IsContributed(hooks: seq<HookId>, plan: seq<Planned>, done: nat) {
    done <= |plan| && |hooks| == done && forall k :: 0 <= k < done ==> hooks[k] == plan[k].id
  }

  /** What a procedure's own publication carries: every unrecorded fact, the view the round or
      the manual procedure froze, and the conversation request it suspended. */
  predicate IsProcedureCarrier(c: Carrier, s: Sys, producer: RequestId) {
    && c.facts == s.facts && c.producer == producer
    && (s.frame.Rounding? ==>
          c.source == Some(s.frame.request) && c.consumed.Some? && IsRoundEvidence(c.consumed.value, s.frame))
    && (s.frame.Manual? ==>
          && c.source.None? && (c.consumed.Some? <==> s.frame.tail.Some?)
          && (c.consumed.Some? ==>
                c.consumed.value.checkpoint == s.frame.checkpoint && Some(c.consumed.value.boundary) == s.frame.tail &&
                c.consumed.value.hooks == []))
  }

  /** What any other terminal carries: the unrecorded facts alone, and nothing without one. */
  predicate IsOuterCarrier(c: Option<Carrier>, s: Sys) {
    && (c.None? <==> s.facts == [])
    && (c.Some? ==> c.value.facts == s.facts && c.value.consumed.None? && c.value.source.None?)
  }

  // ---- Terminals -----------------------------------------------------------------------------

  /** What a finishing step settles its Operation with. */
  predicate IsEndingOf(e: Ending, s: Sys, step: Step)
    requires Driving(s) && IsFinish(step)
  {
    match step
    case ManualNoneStep(producer, settlement, signal) =>
      && e.status == Success && e.detail == "" && e.assistant.None? && e.usage.None? && e.settlement == settlement && e.signal == signal
      && (e.maintenance <==> s.facts != []) && (e.carrier.Some? <==> s.facts != [])
      && (e.carrier.Some? ==> IsProcedureCarrier(e.carrier.value, s, producer))
    case FinishModelStep(status, detail, a, usage, signal, settlement) =>
      && e.status == status && e.detail == detail && e.assistant == a && e.settlement == settlement && e.signal == signal
      && !e.maintenance && IsOuterCarrier(e.carrier, s) && (e.usage.Some? <==> usage.Some?)
      && (usage.Some? ==> ModelLive(Op(s)) && e.usage == Some((Op(s).active.value.model, usage.value)))
    case FinishMaintenanceStep(status, detail, producer, signal, settlement) =>
      && e.status == status && e.detail == detail && e.assistant.None? && e.usage.None? && e.settlement == settlement && e.signal == signal
      && e.maintenance && e.carrier.Some? && IsProcedureCarrier(e.carrier.value, s, producer)
    case FinishQuietStep(status, detail, signal, settlement) =>
      && e.status == status && e.detail == detail && e.assistant.None? && e.usage.None? && e.settlement == settlement && e.signal == signal
      && !e.maintenance && IsOuterCarrier(e.carrier, s)
    case Recover(signal, settlement) =>
      && e.status == Interruption && e.detail == "Operation interrupted by Runtime loss." && e.assistant.None? && e.usage.None?
      && !e.maintenance && e.carrier.None? && e.settlement == settlement && e.signal == signal
  }

  lemma FinishWrites(s: Sys, step: Step) returns (e: Ending)
    requires IsFinish(step) && Next(s, step).Some?
    ensures Driving(s) && IsEndingOf(e, s, step) && SettlementWritten(s.g, Next(s, step).value.g, Current(s), e)
  {
    hide Next, Settle, SettlementWritten, IsEndingOf, EndingOf;
    FinishSettles(s, step);
    e := EndingOf(s, step);
    SettlementWrites(s.g, Current(s), e);
    EndingSays(s, step);
  }

  lemma EndingSays(s: Sys, step: Step)
    requires IsFinish(step) && Driving(s) && (step.FinishModelStep? ==> IsModelEffect(Op(s).active)) && Next(s, step).Some?
    ensures IsEndingOf(EndingOf(s, step), s, step)
  {
    hide FreshEntry, ProducedBy, Settle, AdmitMessageNext, AdmitCompactNext, OpenRoundNext, PureRequestHookNext,
      StopRoundNext, BeginRequestHookNext, CommitRequestHookNext, OpenManualNext, BeginMaintenanceNext,
      CommitMaintenanceNext, CheckpointNext, ManualCheckpointNext, BeginModelNext, CommitModelNext, OpenChainNext,
      PureCallHookNext, BeginCallHookNext, CommitCallHookNext, SettleCallNext, BeginToolNext, InvokeNext, CommitToolNext,
      CompletionNext, LifecycleNext, CrashNext, RestartNext;
    if (step.ManualNoneStep? || step.FinishMaintenanceStep?) && RoundComplete(s.frame) {
      assert IsRoundEvidence(RoundEvidence(s.frame), s.frame);
    }
  }

  // ---- Checkpoints ----------------------------------------------------------------------------

  /** What a checkpoint step publishes: its own identity, messages and cut, consuming the frozen view. */
  predicate IsPlanOf(plan: Plan, s: Sys, id: EntryId, messages: seq<Message>, boundary: EntryId) {
    && plan.id == id && plan.messages == messages && plan.boundary == boundary
    && (s.frame.Rounding? ==> IsRoundEvidence(plan.consumed, s.frame))
    && (s.frame.Manual? ==>
          plan.consumed.checkpoint == s.frame.checkpoint && Some(plan.consumed.boundary) == s.frame.tail && plan.consumed.hooks == [])
  }

  lemma CheckpointStepWrites(s: Sys, step: Step) returns (plan: Plan, carrier: Carrier)
    requires step.CheckpointStep? && Next(s, step).Some?
    ensures Driving(s) && IsPlanOf(plan, s, step.id, step.messages, step.boundary) && IsProcedureCarrier(carrier, s, step.producer)
    ensures CheckpointWritten(s.g, Next(s, step).value.g, Current(s), plan, carrier)
  {
    hide FreshEntry, ProposalValid, RebuiltPaired, CommitCheckpoint, CheckpointWritten, AdmitMessageNext, AdmitCompactNext,
      OpenRoundNext, PureRequestHookNext, StopRoundNext, BeginRequestHookNext, CommitRequestHookNext, OpenManualNext,
      BeginMaintenanceNext, CommitMaintenanceNext, ManualCheckpointNext, ManualNoneNext, BeginModelNext, CommitModelNext,
      FinishModelNext, FinishMaintenanceNext, FinishQuietNext, OpenChainNext, PureCallHookNext, BeginCallHookNext,
      CommitCallHookNext, SettleCallNext, BeginToolNext, InvokeNext, CommitToolNext, CompletionNext, LifecycleNext,
      CrashNext, RecoverNext, RestartNext;
    plan, carrier := Plan(step.id, step.messages, step.boundary, RoundEvidence(s.frame)), ProcedureCarrier(s, step.producer);
    assert IsRoundEvidence(RoundEvidence(s.frame), s.frame);
    CheckpointWrites(s.g, Current(s), plan, carrier);
  }

  lemma ManualCheckpointWrites(s: Sys, step: Step) returns (plan: Plan, carrier: Carrier, mid: Graph, e: Ending)
    requires step.ManualCheckpointStep? && Next(s, step).Some?
    ensures Driving(s) && IsPlanOf(plan, s, step.id, step.messages, step.boundary) && IsProcedureCarrier(carrier, s, step.producer)
    ensures CheckpointWritten(s.g, mid, Current(s), plan, carrier)
    ensures e.status == Success && e.detail == "" && e.assistant.None? && e.usage.None? && !e.maintenance && e.carrier.None?
    ensures e.settlement == step.settlement && e.signal == step.signal
    ensures SettlementWritten(mid, Next(s, step).value.g, Current(s), e)
  {
    hide FreshEntry, SafeCut, CoveredBoundary, RebuiltPaired, CommitCheckpoint, CheckpointWritten, Settle,
      SettlementWritten, AdmitMessageNext, AdmitCompactNext, OpenRoundNext, PureRequestHookNext, StopRoundNext,
      BeginRequestHookNext, CommitRequestHookNext, OpenManualNext, BeginMaintenanceNext, CommitMaintenanceNext,
      CheckpointNext, ManualNoneNext, BeginModelNext, CommitModelNext, FinishModelNext, FinishMaintenanceNext,
      FinishQuietNext, OpenChainNext, PureCallHookNext, BeginCallHookNext, CommitCallHookNext, SettleCallNext,
      BeginToolNext, InvokeNext, CommitToolNext, CompletionNext, LifecycleNext, CrashNext, RecoverNext, RestartNext;
    plan := Plan(step.id, step.messages, step.boundary, Evidence(s.frame.checkpoint, s.frame.tail.value, []));
    carrier := ProcedureCarrier(s, step.producer);
    mid := CommitCheckpoint(s.g, Current(s), plan, carrier).value;
    e := SuccessEnding(None, step.settlement, step.signal);
    CheckpointWrites(s.g, Current(s), plan, carrier);
    SettlementWrites(mid, Current(s), e);
  }

  // ---- Intents ----------------------------------------------------------------------------------

  /** The effect an intent step commits. */
  predicate IsEffectOf(effect: Effect, s: Sys, step: Step) {
    match step
    case BeginRequestHookStep(result) =>
      && s.frame.Rounding? && s.frame.done < |s.frame.plan| && s.frame.plan[s.frame.done].effectful
      && effect.RequestHookEffect? && effect.result == result && effect.request == s.frame.request
      && effect.hook == s.frame.plan[s.frame.done].id && IsRoundEvidence(effect.evidence, s.frame)
    case BeginModelStep(result, m) =>
      && s.frame.Rounding? && s.frame.done == |s.frame.plan| && !s.frame.stopped
      && effect.ConversationEffect? && effect.result == result && effect.request == s.frame.request && effect.model == m
      && IsRoundEvidence(effect.evidence, s.frame)
    case BeginMaintenanceStep(result, producer, m, _) => effect == MaintenanceEffect(result, producer, m)
    case BeginCallHookStep(result) =>
      && s.frame.Chaining? && s.frame.done < |s.frame.plan| && s.frame.plan[s.frame.done].effectful && s.frame.broken.None?
      && effect == CallHookEffect(result, s.frame.call, s.frame.plan[s.frame.done].id)
    case BeginToolStep =>
      && s.frame.Chaining? && s.frame.done == |s.frame.plan| && s.frame.broken.None?
      && effect.ToolEffect? && effect.call == s.frame.call && IsContributed(effect.hooks, s.frame.plan, s.frame.done)
      && Driving(s) && |Op(s).pending| > 0 && Op(s).pending[0].call == s.frame.call && effect.result == Op(s).pending[0].result
    case _ => false
  }

  /** An intent step commits its effect; a maintenance input retained under a cancellation commits none. */
  lemma IntentWrites(s: Sys, step: Step)
    requires IsIntent(step) && !step.CommitMaintenance? && Next(s, step).Some?
    ensures Driving(s)
    ensures var g := Next(s, step).value.g;
            if step.BeginMaintenanceStep? && !step.committed then g == s.g
            else g.ops.Keys == s.g.ops.Keys && Op(s).active.None? && g.ops[Current(s)].active.Some? &&
                 IsEffectOf(g.ops[Current(s)].active.value, s, step) &&
                 Intended(s.g, g, Current(s), g.ops[Current(s)].active.value)
  {
    hide FreshEntry, FreshRequest, AdmitMessageNext, AdmitCompactNext, OpenRoundNext, PureRequestHookNext, StopRoundNext,
      CommitRequestHookNext, OpenManualNext, CommitMaintenanceNext, CheckpointNext, ManualCheckpointNext, ManualNoneNext,
      CommitModelNext, FinishModelNext, FinishMaintenanceNext, FinishQuietNext, OpenChainNext, PureCallHookNext,
      CommitCallHookNext, SettleCallNext, InvokeNext, CommitToolNext, CompletionNext, LifecycleNext, CrashNext, RecoverNext,
      RestartNext;
    if step.BeginRequestHookStep? || step.BeginModelStep? {
      assert IsRoundEvidence(RoundEvidence(s.frame), s.frame);
    }
  }

  // ---- Results -------------------------------------------------------------------------------------

  /** The text a call's result is stored with: the executor's or the chain's own, under the
      notice the outcome owes. */
  ghost predicate IsStoredText(text: Text, s: Sys, base: Text, knowledge: Knowledge)
    requires Driving(s) && s.frame.Chaining?
  {
    text == if knowledge == Unknown then EXECUTION_NOTICE + base
            else if Op(s).active.None? && HookLeftUnknown(s.g.log, Current(s), s.frame.call) then HOOK_NOTICE + base
            else base
  }

  /** An immediate result: the selection is the chain's so far when the call was accepted. */
  lemma SettleCallWrites(s: Sys, result: ResultStatus, base: Text, knowledge: Knowledge, accepted: bool) returns (out: Outcome)
    requires SettleCallNext(s, result, base, knowledge, accepted).Some?
    ensures Driving(s) && s.frame.Chaining?
    ensures out.result == result && out.knowledge == knowledge && out.accepted == accepted && IsStoredText(out.text, s, base, knowledge)
    ensures if accepted then IsContributed(out.hooks, s.frame.plan, s.frame.done) else out.hooks == []
    ensures CallWritten(s.g, SettleCallNext(s, result, base, knowledge, accepted).value.g, Current(s), s.frame.call, out, false)
  {
    hide HookUnknown, HookLeftUnknown, CallWritten, CommitImmediate, EXECUTION_NOTICE, HOOK_NOTICE, UNKNOWN_PREFIX, UNKNOWN_HOOK_PREFIX;
    out := Outcome(result, ResultText(knowledge, HookUnknown(s.g.log, Current(s), s.frame.call), base), knowledge, accepted,
                   if accepted then Contributed(s.frame) else []);
    CallWrites(s.g, Current(s), s.frame.call, out, false);
    UnknownMeans(s.g.log, Current(s), s.frame.call);
    NoticesWritten();
    ImmediateIsQuiet(s.g, Current(s), s.frame.call, out);
  }

  lemma ImmediateIsQuiet(g: Graph, o: OpId, c: CallId, out: Outcome)
    requires CommitImmediate(g, o, c, out).Some?
    ensures Quiet(g, o)
  {
  }

  lemma UnknownMeans(log: seq<Entry>, o: OpId, c: CallId)
    ensures HookUnknown(log, o, c) <==> HookLeftUnknown(log, o, c)
  {
    if HookUnknown(log, o, c) {
      var i :| 0 <= i < |log| && IsHookResult(log[i], o, ForCall(c)) && log[i].body.knowledge == Unknown;
      assert log[i].owner == Some(o);
    }
    if HookLeftUnknown(log, o, c) {
      var i :| 0 <= i < |log| && log[i].owner == Some(o) && log[i].body.HookResult? && log[i].body.binding == ForCall(c) &&
               log[i].body.knowledge == Unknown;
      assert IsHookResult(log[i], o, ForCall(c));
    }
  }

  lemma CommitToolWrites(s: Sys, result: ResultStatus, base: Text, knowledge: Knowledge) returns (out: Outcome)
    requires CommitToolNext(s, result, base, knowledge).Some?
    ensures Driving(s) && s.frame.Chaining?
    ensures out.result == result && out.knowledge == knowledge && IsStoredText(out.text, s, base, knowledge)
    ensures !s.started ==> result == ResultInterrupted && knowledge == NotStarted
    ensures CallWritten(s.g, CommitToolNext(s, result, base, knowledge).value.g, Current(s), s.frame.call, out, true)
  {
    hide HookLeftUnknown, CallWritten, CommitExecuted, EXECUTION_NOTICE, HOOK_NOTICE, UNKNOWN_PREFIX, UNKNOWN_HOOK_PREFIX;
    out := Outcome(result, ResultText(knowledge, false, base), knowledge, true, []);
    CallWrites(s.g, Current(s), s.frame.call, out, true);
    NoticesWritten();
  }

  lemma HookStepWrites(s: Sys, step: Step)
    requires (step.CommitRequestHook? || step.CommitCallHook?) && Next(s, step).Some?
    ensures Driving(s) && HookWritten(s.g, Next(s, step).value.g, Current(s), step.outcome, step.knowledge)
    ensures step.outcome == HookSucceeded ==> step.knowledge == Observed
  {
    hide CommitHook, HookWritten, AdmitMessageNext, AdmitCompactNext, OpenRoundNext, PureRequestHookNext, StopRoundNext,
      BeginRequestHookNext, OpenManualNext, BeginMaintenanceNext, CommitMaintenanceNext, CheckpointNext,
      ManualCheckpointNext, ManualNoneNext, BeginModelNext, CommitModelNext, FinishModelNext, FinishMaintenanceNext,
      FinishQuietNext, OpenChainNext, PureCallHookNext, BeginCallHookNext, SettleCallNext, BeginToolNext, InvokeNext,
      CommitToolNext, CompletionNext, LifecycleNext, CrashNext, RecoverNext, RestartNext;
    HookWrites(s.g, Current(s), step.outcome, step.knowledge);
  }

  lemma ModelStepWrites(s: Sys, a: Option<Produced>, signal: Option<EntryId>)
    requires CommitModelNext(s, a, signal).Some?
    ensures Driving(s) && ModelResultWritten(s.g, CommitModelNext(s, a, signal).value.g, Current(s), a, signal)
    ensures Op(s).active.Some? && Op(s).active.value.ConversationEffect?
    ensures a.Some? ==> var effect := Op(s).active.value;
              a.value.id == effect.result && a.value.request == effect.request && a.value.evidence == effect.evidence
  {
    hide ModelResultWritten, CommitModelResult, FreshProduced, FreshEntry;
    ModelResultWrites(s.g, Current(s), a, signal);
  }

  lemma MaintenanceStepWrites(s: Sys, usage: Option<Usage>)
    requires CommitMaintenanceNext(s, usage).Some?
    ensures Driving(s) && MaintenanceResultWritten(s.g, CommitMaintenanceNext(s, usage).value.g, Current(s))
  {
    hide MaintenanceResultWritten, CommitMaintenanceResult;
    MaintenanceResultWrites(s.g, Current(s));
  }

  // ---- The rest --------------------------------------------------------------------------------------

  lemma AdmissionStepWrites(s: Sys, o: OpId, entry: EntryId, origin: Origin, text: Text)
    ensures AdmitMessageNext(s, o, entry, origin, text).Some? <==> s.frame == Idle && FreshEntry(s.g, entry) && Admissible(s.g, o)
    ensures AdmitMessageNext(s, o, entry, origin, text).Some? ==>
              Admitted(s.g, AdmitMessageNext(s, o, entry, origin, text).value.g, o, MessageKind, entry, origin, text)
    ensures AdmitCompactNext(s, o).Some? <==> s.frame == Idle && Admissible(s.g, o)
    ensures AdmitCompactNext(s, o).Some? ==> Admitted(s.g, AdmitCompactNext(s, o).value.g, o, CompactKind, entry, origin, text)
  {
    hide FreshEntry, Admitted, AdmitMessage, AdmitCompact;
    AdmissionWrites(s.g, o, entry, origin, text);
  }

  lemma CompletionStepWrites(s: Sys, entry: EntryId, text: Text)
    ensures CompletionNext(s, entry, text).Some? <==> FreshEntry(s.g, entry)
    ensures CompletionNext(s, entry, text).Some? ==> CompletionWritten(s.g, CompletionNext(s, entry, text).value.g, entry, text)
  {
    hide FreshEntry, CompletionWritten, RecordCompletion;
    CompletionWrites(s.g, entry, text);
  }
}
