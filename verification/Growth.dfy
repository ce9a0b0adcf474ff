/** One transaction on the running Operation: what its new entries and its new
    register must satisfy for the Session to stay accepted. */
module Growth {
  import opened Records
  import opened Validator
  import opened Transactions
  import opened LogLemmas
  import opened LogFacts

  lemma RefsGrow(log: seq<Entry>, e: Entry, checkpoint: Option<EntryId>, boundary: EntryId)
    requires RefsResolve(log, checkpoint, boundary)
    ensures RefsResolve(log + [e], checkpoint, boundary)
  {
    var log' := log + [e];
    var b: nat :| RefsAt(log, checkpoint, boundary, b);
    if checkpoint.Some? {
      var c: nat :| CheckpointRefAt(log, checkpoint.value, b, c);
      if c != b {
        var t :| 0 <= t < b && t < |log| && log[t].id == log[c].body.boundary;
        assert log'[t].id == log'[c].body.boundary;
        assert CoveredBelow(log', log'[c].body.boundary, b);
      }
      assert CheckpointRefAt(log', checkpoint.value, b, c);
    }
    assert RefsAt(log', checkpoint, boundary, b);
  }

  lemma AdmissionGrows(log: seq<Entry>, e: Entry, o: OpId, a: Admission)
    requires AdmissionAgrees(log, o, a)
    ensures AdmissionAgrees(log + [e], o, a)
  {
    if a.kind == MessageKind {
      var i :| 0 <= i < |log| && log[i].id == a.admitted.value && log[i].body.Input? && Owned(log[i], o);
      assert (log + [e])[i].id == a.admitted.value && (log + [e])[i].body.Input? && Owned((log + [e])[i], o);
    }
  }

  lemma TerminalGrows(log: seq<Entry>, e: Entry, o: OpId, op: Operation)
    requires TerminalAgrees(log, o, op) && !Owned(e, o)
    ensures TerminalAgrees(log + [e], o, op)
  {
    SnocForeign(log, e, o);
    var i :| 0 <= i < |log| && log[i].id == op.terminal.value.settlement && IsSettlement(log[i], o) &&
             log[i].body.settlement.status == op.status && log[i].body.settlement.detail == op.terminal.value.detail;
    assert (log + [e])[i] == log[i];
  }

  lemma AnsweredGrows(log: seq<Entry>, e: Entry, o: OpId, r: RequestId)
    ensures Answered(log + [e], o, r) <==> Answered(log, o, r) || (Owned(e, o) && e.body.Assistant? && e.body.request == r)
  {
    var log' := log + [e];
    if Answered(log, o, r) {
      var i :| 0 <= i < |log| && Owned(log[i], o) && log[i].body.Assistant? && log[i].body.request == r;
      assert log'[i] == log[i];
    }
    if Owned(e, o) && e.body.Assistant? && e.body.request == r {
      assert log'[|log|] == e;
    }
  }

  lemma ChainGrows(log: seq<Entry>, e: Entry, o: OpId, b: Binding)
    ensures ChainIntact(log + [e], o, b) <==>
            ChainIntact(log, o, b) && (IsHookResult(e, o, b) ==> e.body.outcome == HookSucceeded)
  {
    var log' := log + [e];
    if ChainIntact(log', o, b) {
      forall i | 0 <= i < |log| && IsHookResult(log[i], o, b) ensures log[i].body.outcome == HookSucceeded {
        assert log'[i] == log[i];
      }
      assert log'[|log|] == e;
    }
  }

  lemma IdentityGrows(log: seq<Entry>, e: Entry, id: EntryId)
    requires IdentityFree(log, id) && e.id != id
    requires e.body.Assistant? ==> forall k :: 0 <= k < |e.body.calls| ==> e.body.calls[k].result != id
    ensures IdentityFree(log + [e], id)
  {
    CommittedSnoc(log, e, id);
    forall i, k | IsReservation(log + [e], i, k) ensures Reserved(log + [e], i, k) != id {
      ReservationSnoc(log, e, i, k);
    }
  }

  /** A running register survives an entry its Operation does not own. */
  lemma RunningGrowsForeign(session: Session, log: seq<Entry>, e: Entry, o: OpId, op: Operation)
    requires RunningAgrees(session, log, o, op) && !Owned(e, o) && !e.body.Assistant?
    requires op.active.Some? && !op.active.value.ToolEffect? ==> op.active.value.result != e.id
    ensures RunningAgrees(session, log + [e], o, op)
  {
    SnocForeign(log, e, o);
    UnresolvedSame(Published(log, o), log, log + [e], o);
    if op.active.Some? {
      var effect := op.active.value;
      match effect
      case ConversationEffect(result, r, _, ev) =>
        IdentityGrows(log, e, result);
        AnsweredGrows(log, e, o, r);
        ChainGrows(log, e, o, ForRequest(r));
        RefsGrow(log, e, ev.checkpoint, ev.boundary);
      case MaintenanceEffect(result, r, _) =>
        IdentityGrows(log, e, result);
        AnsweredGrows(log, e, o, r);
        ChainGrows(log, e, o, ForRequest(r));
      case RequestHookEffect(result, r, _, ev) =>
        IdentityGrows(log, e, result);
        AnsweredGrows(log, e, o, r);
        ChainGrows(log, e, o, ForRequest(r));
        RefsGrow(log, e, ev.checkpoint, ev.boundary);
      case CallHookEffect(result, call, _) =>
        IdentityGrows(log, e, result);
        ChainGrows(log, e, o, ForCall(call));
      case ToolEffect(_, call, _) =>
        ChainGrows(log, e, o, ForCall(call));
    }
    if op.request.Some? {
      RefsGrow(log, e, op.request.value.checkpoint, op.request.value.boundary);
    }
  }

  // ---- Whole transactions -------------------------------------------------------

  predicate AllOwned(es: seq<Entry>, o: OpId) {
    forall i :: 0 <= i < |es| ==> Owned(es[i], o)
  }

  lemma {:induction false} OthersGrow(log: seq<Entry>, es: seq<Entry>, o: OpId, x: OpId)
    requires AllOwned(es, o) && x != o
    ensures forall op :: TerminalAgrees(log, x, op) ==> TerminalAgrees(log + es, x, op)
    ensures OperationUsage(log + es, x) == OperationUsage(log, x)
  {
    if |es| == 0 {
      assert log + es == log;
    } else {
      var n := |es| - 1;
      assert log + es == (log + es[..n]) + [es[n]];
      OthersGrow(log, es[..n], o, x);
      SnocForeign(log + es[..n], es[n], x);
      forall op | TerminalAgrees(log, x, op) ensures TerminalAgrees(log + es, x, op) {
        TerminalGrows(log + es[..n], es[n], x, op);
      }
    }
  }

  lemma {:induction false} AdmissionsGrow(log: seq<Entry>, es: seq<Entry>, o: OpId, a: Admission)
    requires AdmissionAgrees(log, o, a)
    ensures AdmissionAgrees(log + es, o, a)
  {
    if |es| == 0 {
      assert log + es == log;
    } else {
      var n := |es| - 1;
      AdmissionsGrow(log, es[..n], o, a);
      assert log + es == (log + es[..n]) + [es[n]];
      AdmissionGrows(log + es[..n], es[n], o, a);
    }
  }

  ghost predicate NamesCheckpoint(session: Session, log: seq<Entry>) {
    session.checkpoint.Some? ==> exists i :: 0 <= i < |log| && log[i].id == session.checkpoint.value && log[i].body.Checkpoint?
  }

  lemma CheckpointNamed(g: Graph)
    requires Accepted(g)
    ensures NamesCheckpoint(g.session, g.log)
  {
  }

  lemma NamesCheckpointGrows(session: Session, session': Session, log: seq<Entry>, es: seq<Entry>)
    requires NamesCheckpoint(session, log) && session'.checkpoint == session.checkpoint
    ensures NamesCheckpoint(session', log + es)
  {
    if session.checkpoint.Some? {
      var i :| 0 <= i < |log| && log[i].id == session.checkpoint.value && log[i].body.Checkpoint?;
      assert (log + es)[i] == log[i];
    }
  }

  lemma OtherOperation(g: Graph, g': Graph, es: seq<Entry>, o: OpId, x: OpId)
    requires x in g.ops && x in g'.ops && g'.ops[x] == g.ops[x] && x != o
    requires OperationAgrees(g, x) && g.ops[x].status != Running && AllOwned(es, o) && g'.log == g.log + es
    requires g.ops[x].usage == OperationUsage(g.log, x)
    ensures OperationAgrees(g', x) && g'.ops[x].usage == OperationUsage(g'.log, x)
  {
    AdmissionsGrow(g.log, es, x, g.ops[x].admission);
    OthersGrow(g.log, es, o, x);
  }

  lemma AdmissionsSame(ops: map<OpId, Operation>, o: OpId, op: Operation)
    requires o in ops && op.admission == ops[o].admission
    ensures Admissions(ops[o := op]) == Admissions(ops)
  {
  }

  /** A transaction of the running Operation o keeps the Session accepted when its
      log fits and its register agrees with the new log. */
  lemma TransactionAccepted(g: Graph, o: OpId, es: seq<Entry>, g': Graph)
    requires Accepted(g) && IsRunning(g, o) && AllOwned(es, o)
    requires o in g'.ops && g'.ops == g.ops[o := g'.ops[o]] && g'.log == g.log + es
    requires g'.ops[o].admission == g.ops[o].admission
    requires LogAccepted(g.session.fork, Admissions(g.ops), g'.log)
    requires g'.ops[o].usage == OperationUsage(g'.log, o) && g'.session.usage == SessionUsage(g'.log)
    requires g'.session.fork == g.session.fork && g'.session.open == g.session.open
    requires g'.session.current == if g'.ops[o].status == Running then Some(o) else None
    requires NamesCheckpoint(g'.session, g'.log)
    requires if g'.ops[o].status == Running then RunningAgrees(g'.session, g'.log, o, g'.ops[o])
             else TerminalAgrees(g'.log, o, g'.ops[o])
    ensures Accepted(g')
  {
    AdmissionsSame(g.ops, o, g'.ops[o]);
    OnlyRunning(g, o);
    OwnOperation(g, g', es, o);
    OtherOperations(g, g', es, o);
  }

  lemma OtherOperations(g: Graph, g': Graph, es: seq<Entry>, o: OpId)
    requires o in g'.ops && g'.ops == g.ops[o := g'.ops[o]]
    requires OperationsAgree(g) && UsageAgrees(g)
    requires forall x :: x in g.ops && x != o ==> g.ops[x].status != Running
    requires AllOwned(es, o) && g'.log == g.log + es
    ensures forall x :: x in g'.ops && x != o ==> OperationAgrees(g', x) && g'.ops[x].usage == OperationUsage(g'.log, x)
  {
    forall x | x in g'.ops && x != o
      ensures OperationAgrees(g', x) && g'.ops[x].usage == OperationUsage(g'.log, x)
    {
      OtherOperation(g, g', es, o, x);
    }
  }

  lemma OwnOperation(g: Graph, g': Graph, es: seq<Entry>, o: OpId)
    requires o in g.ops && o in g'.ops && g'.ops[o].admission == g.ops[o].admission && g'.log == g.log + es
    requires AdmissionAgrees(g.log, o, g.ops[o].admission)
    requires if g'.ops[o].status == Running then RunningAgrees(g'.session, g'.log, o, g'.ops[o])
             else TerminalAgrees(g'.log, o, g'.ops[o])
    ensures OperationAgrees(g', o)
  {
    AdmissionsGrow(g.log, es, o, g.ops[o].admission);
  }

  lemma OnlyRunning(g: Graph, o: OpId)
    requires Accepted(g) && IsRunning(g, o)
    ensures forall x :: x in g.ops && x != o ==> g.ops[x].status != Running
    ensures g.session.current == Some(o) && g.session.open
    ensures RunningAgrees(g.session, g.log, o, g.ops[o])
  {
    assert OperationAgrees(g, o);
  }

  /** A transaction that writes registers only. */
  lemma RegisterAccepted(g: Graph, o: OpId, op: Operation)
    requires Accepted(g) && IsRunning(g, o)
    requires op.status == Running && op.admission == g.ops[o].admission && op.usage == g.ops[o].usage
    requires RunningAgrees(g.session, g.log, o, op)
    ensures Accepted(WithOp(g, o, op))
  {
    assert g.log + [] == g.log;
    OnlyRunning(g, o);
    TransactionAccepted(g, o, [], WithOp(g, o, op));
  }
}
