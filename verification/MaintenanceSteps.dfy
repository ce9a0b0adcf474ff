/** Context maintenance and checkpoints keep the driven Session's invariant. */
module MaintenanceSteps {
  import opened Records
  import opened Validator
  import opened Transactions
  import opened LogLemmas
  import opened Growth
  import opened Appends
  import opened Settling
  import opened Commits
  import opened View
  import opened Driver
  import opened Discipline
  import opened RoundSteps

  lemma OpenManualKeeps(s: Sys)
    requires Inv(s) && OpenManualNext(s).Some?
    ensures Inv(OpenManualNext(s).value)
  {
    hide LogFits, LogConsistent, OperationsAgree, SafeCut;
    if ProjectedBoundary(s.g.log, s.g.session.checkpoint).Some? {
      ProjectedResolves(s.g);
    }
  }

  /** A fresh producer joins the facts no publication recorded. */
  lemma FactsExtend(s: Sys, p: RequestId, m: ModelRef)
    requires Driving(s) && FactsFit(s.g.log, Current(s), s.facts) && FreshRequest(s, p)
    ensures FactsFit(s.g.log, Current(s), s.facts + [Fact(p, m, None)])
  {
    UnmentionedIsOpen(s.g.log, Current(s), p);
  }

  lemma BeginMaintenanceKeeps(s: Sys, result: EntryId, producer: RequestId, m: ModelRef, committed: bool)
    requires Inv(s) && BeginMaintenanceNext(s, result, producer, m, committed).Some?
    ensures Inv(BeginMaintenanceNext(s, result, producer, m, committed).value)
  {
    hide LogFits, LogConsistent, OperationsAgree, SafeCut, UsageAgrees, SessionAgrees, NamedWithin, RefsResolve;
    var s' := BeginMaintenanceNext(s, result, producer, m, committed).value;
    FactsExtend(s, producer, m);
    UnmentionedIsOpen(s.g.log, Current(s), producer);
    OnlyRunning(s.g, Current(s));
    if committed {
      if s.frame.Rounding? {
        RoundRequestAgrees(s);
      }
      BeginAccepted(s.g, Current(s), Op(s').active.value, Op(s').request);
    }
  }

  lemma FactsReported(log: seq<Entry>, o: OpId, facts: seq<Fact>, usage: Option<Usage>)
    requires FactsFit(log, o, facts)
    ensures FactsFit(log, o, WithUsage(facts, usage)) && |WithUsage(facts, usage)| == |facts|
    ensures forall k :: 0 <= k < |facts| ==> WithUsage(facts, usage)[k].request == facts[k].request
  {
  }

  lemma CommitMaintenanceKeeps(s: Sys, usage: Option<Usage>)
    requires Inv(s) && CommitMaintenanceNext(s, usage).Some?
    ensures Inv(CommitMaintenanceNext(s, usage).value)
  {
    hide LogFits, LogConsistent, OperationsAgree, SafeCut;
    MaintenanceResultAccepted(s.g, Current(s));
    FactsReported(s.g.log, Current(s), s.facts, usage);
  }

  lemma ProposalIsSafe(s: Sys, boundary: EntryId)
    requires ProposalValid(s, boundary)
    ensures BoundarySafe(s.g.log, boundary)
  {
    var b: nat := PositionOf(s.g.log, boundary);
    assert s.g.log[b].id == boundary && SafeCut(s.g.log, b);
  }

  lemma RoundCheckpointFits(s: Sys, plan: Plan, producer: RequestId)
    requires Inv(s) && InProcedure(s) && s.frame.Rounding? && Op(s).active.None?
    requires FreshEntry(s.g, plan.id) && BoundarySafe(s.g.log, plan.boundary)
    ensures CheckpointPlanFits(s.g, Current(s), plan, ProcedureCarrier(s, producer))
  {
    hide LogFits, LogConsistent, OperationsAgree, SafeCut;
    RoundEvidenceHolds(s);
    if Op(s).request.None? {
      NoHooks(s.g.log, Current(s), ForRequest(s.frame.request));
    }
  }

  /** A round continues over the projection its checkpoint rebuilt. */
  lemma RoundAfterCheckpoint(session: Session, session': Session, log: seq<Entry>, o: OpId, f: Frame, e: Entry)
    requires f.Rounding? && !f.stopped && f.done == |f.plan| && RoundLogOk(session, log, o, f)
    requires Owned(e, o) && e.body.Checkpoint? && BoundarySafe(log, e.body.boundary) && session'.checkpoint == Some(e.id)
    requires e.body.evidence == RoundEvidence(f)
    ensures RoundLogOk(session', log + [e], o,
                       f.(checkpoint := Some(e.id), boundary := RebuiltBoundary(log, e.body.boundary, e.id)))
  {
    var log' := log + [e];
    var f' := f.(checkpoint := Some(e.id), boundary := RebuiltBoundary(log, e.body.boundary, e.id));
    RebuiltResolves(log, e);
    SnocNeutral(log, e, o);
    AnsweredGrows(log, e, o, f.request);
    ChainGrows(log, e, o, ForRequest(f.request));
    forall i, h | 0 <= i < |log'| && Names(log'[i], o, f.request, h) ensures h in Contributed(f') {
      if i < |log| {
        assert log'[i] == log[i];
      }
    }
  }

  lemma CheckpointKeeps(s: Sys, id: EntryId, messages: seq<Message>, boundary: EntryId, producer: RequestId)
    requires Inv(s) && CheckpointNext(s, id, messages, boundary, producer).Some?
    ensures Inv(CheckpointNext(s, id, messages, boundary, producer).value)
  {
    hide LogFits, LogConsistent, OperationsAgree, SafeCut, RequestAgrees, NamedWithin, RefsResolve, ProducerUsed, Answered,
         RebuiltBoundary, ChargeFacts, CoveredBoundary, RebuiltPaired, UsageAgrees, SessionAgrees;
    var o := Current(s);
    var plan, carrier := Plan(id, messages, boundary, RoundEvidence(s.frame)), ProcedureCarrier(s, producer);
    var s' := CheckpointNext(s, id, messages, boundary, producer).value;
    ProposalIsSafe(s, boundary);
    RoundCheckpointFits(s, plan, producer);
    CheckpointAccepted(s.g, o, plan, carrier);
    OnlyRunning(s.g, o);
    var e := CheckpointEntry(o, plan, carrier);
    RoundAfterCheckpoint(s.g.session, s'.g.session, s.g.log, o, s.frame, e);
    assert s'.g.log == s.g.log + [e];
    assert Op(s').request.Some?;
  }

  // ---- Manual maintenance ------------------------------------------------------------

  lemma NoRequestHooks(log: seq<Entry>, o: OpId, b: Binding)
    requires forall i :: 0 <= i < |log| && Owned(log[i], o) ==> !log[i].body.HookResult?
    ensures HooksOf(log, o, b) == [] && HookEntriesOf(log, o, b) == []
  {
    NoHooks(log, o, b);
  }

  lemma ManualCheckpointFits(s: Sys, plan: Plan, producer: RequestId)
    requires Inv(s) && InProcedure(s) && s.frame.Manual? && s.frame.tail.Some? && Op(s).active.None?
    requires FreshEntry(s.g, plan.id) && BoundarySafe(s.g.log, plan.boundary)
    ensures CheckpointPlanFits(s.g, Current(s), plan, ProcedureCarrier(s, producer))
  {
    hide LogFits, LogConsistent, OperationsAgree, SafeCut;
    var body := CheckpointEntry(Current(s), plan, ProcedureCarrier(s, producer)).body;
    if OrderKey(body).Some? {
      NoRequestHooks(s.g.log, Current(s), ForRequest(OrderKey(body).value));
    }
  }

  lemma FreshAfterCheckpoint(g: Graph, o: OpId, plan: Plan, carrier: Carrier, id: EntryId)
    requires IsRunning(g, o) && g.ops[o].active.None? && FreshEntry(g, id) && id != plan.id
    ensures var g' := CommitCheckpoint(g, o, plan, carrier).value;
            FreshAside(g'.log, g'.ops[o], None, id)
  {
    IdentityGrows(g.log, CheckpointEntry(o, plan, carrier), id);
  }

  lemma ManualCheckpointKeeps(s: Sys, id: EntryId, messages: seq<Message>, boundary: EntryId, producer: RequestId,
                              settlement: EntryId, signal: EntryId)
    requires Inv(s) && ManualCheckpointNext(s, id, messages, boundary, producer, settlement, signal).Some?
    ensures Inv(ManualCheckpointNext(s, id, messages, boundary, producer, settlement, signal).value)
  {
    hide LogFits, LogConsistent, OperationsAgree, SafeCut, RunningAgrees, CheckpointPlanFits, EndingLog, RebuiltPaired, IdentityFree,
         RebuiltBoundary, ChargeFacts, EndingUsage;
    var o := Current(s);
    var plan := Plan(id, messages, boundary, Evidence(s.frame.checkpoint, s.frame.tail.value, []));
    var carrier := ProcedureCarrier(s, producer);
    ProposalIsSafe(s, boundary);
    ManualCheckpointFits(s, plan, producer);
    CheckpointAccepted(s.g, o, plan, carrier);
    FreshAfterCheckpoint(s.g, o, plan, carrier, settlement);
    FreshAfterCheckpoint(s.g, o, plan, carrier, signal);
    SettleAccepted(CommitCheckpoint(s.g, o, plan, carrier).value, o, SuccessEnding(None, settlement, signal));
  }

  /** What a maintenance procedure carries fits the log it is published on. */
  lemma ProcedureCarrierFits(s: Sys, producer: RequestId)
    requires Inv(s) && InProcedure(s)
    ensures CarrierFits(s.g.log, Current(s), Op(s).admission.kind, ProcedureCarrier(s, producer))
  {
    hide LogFits, LogConsistent, OperationsAgree, SafeCut;
    if s.frame.Rounding? {
      RoundEvidenceHolds(s);
    } else {
      NoRequestHooks(s.g.log, Current(s), ForRequest(producer));
    }
  }

  lemma ManualNoneKeeps(s: Sys, producer: RequestId, settlement: EntryId, signal: EntryId)
    requires Inv(s) && ManualNoneNext(s, producer, settlement, signal).Some?
    ensures Inv(ManualNoneNext(s, producer, settlement, signal).value)
  {
    hide LogFits, LogConsistent, OperationsAgree, SafeCut;
    ProcedureCarrierFits(s, producer);
    SettleAccepted(s.g, Current(s),
                   SuccessEnding(if s.facts == [] then None else Some(ProcedureCarrier(s, producer)), settlement, signal));
  }

  lemma FinishMaintenanceKeeps(s: Sys, status: Status, detail: Text, producer: RequestId, signal: EntryId, settlement: EntryId)
    requires Inv(s) && FinishMaintenanceNext(s, status, detail, producer, signal, settlement).Some?
    ensures Inv(FinishMaintenanceNext(s, status, detail, producer, signal, settlement).value)
  {
    hide LogFits, LogConsistent, OperationsAgree, SafeCut;
    ProcedureCarrierFits(s, producer);
    SettleAccepted(s.g, Current(s),
                   Ending(status, detail, None, None, true, Some(ProcedureCarrier(s, producer)), signal, settlement));
  }
}
