/** The stored records of one Session and the transactions that rewrite them in place
    (harness/effect.go, compact.go, harness.go, background.go, recover.go, fork.go). Each
    method is one transaction: it checks its precondition on the stored records, compares
    their revisions with the view its caller decided on, and writes all or nothing. */
module SessionStore {
  import opened Records
  import opened Validator
  import opened Transactions
  import opened LogFacts
  import opened Appends
  import opened Settling
  import opened Commits
  import opened Snapshots
  import opened History
  import opened Fork
  import opened Recovery
  import opened Contents

  // ---- The store ----------------------------------------------------------------------------

  class Store {
    var session: Session
    var ops: map<OpId, Operation>
    var log: seq<Entry>
    var sessionRevision: nat
    var opRevisions: map<OpId, nat>

    function View(): Graph
      reads this
    {
      Graph(session, ops, log)
    }

    function Snap(): Snapshot
      reads this
    {
      Snapshot(View(), sessionRevision, opRevisions)
    }

    predicate Valid()
      reads this
    {
      opRevisions.Keys == ops.Keys
    }

    constructor ()
      ensures Valid() && View() == Graph(Session(false, true, None, None, map[]), map[], []) && sessionRevision == 1
    {
      session, ops, log := Session(false, true, None, None, map[]), map[], [];
      sessionRevision, opRevisions := 1, map[];
    }

    // ---- The storage contract ------------------------------------------------------

    /** Storage appends one entry. */
    method InsertEntry(e: Entry)
      modifies this`log
      ensures log == old(log) + [e]
    {
      log := log + [e];
    }

    method InsertOperation(o: OpId, op: Operation)
      requires Valid() && o !in ops
      modifies this`ops, this`opRevisions
      ensures Valid() && ops == old(ops)[o := op] && opRevisions == old(opRevisions)[o := 1]
    {
      ops, opRevisions := ops[o := op], opRevisions[o := 1];
    }

    /** Replacement requires the exact current revision and assigns the next. */
    method ReplaceOperation(o: OpId, revision: nat, op: Operation)
      requires Valid() && o in ops && opRevisions[o] == revision
      modifies this`ops, this`opRevisions
      ensures Valid() && ops == old(ops)[o := op] && opRevisions == old(opRevisions)[o := revision + 1]
    {
      ops, opRevisions := ops[o := op], opRevisions[o := revision + 1];
    }

    method ReplaceSession(revision: nat, s: Session)
      requires sessionRevision == revision
      modifies this`session, this`sessionRevision
      ensures session == s && sessionRevision == revision + 1
    {
      session, sessionRevision := s, revision + 1;
    }

    // ---- Admission --------------------------------------------------------------

    /** A view that is behind resolves an existing identity, then a violated precondition,
        then the race; a current one inserts, and a conflicting insertion resolves the same way. */
    method PublishAdmission(view: Snapshot, o: OpId, kind: RequestKind, entry: EntryId, origin: Origin, text: Text) returns (v: Verdict)
      requires Valid() && Follows(view, Snap()) && CanAdmit(view.g, o)
      modifies this
      ensures Valid() && Follows(old(Snap()), Snap())
      ensures v == (if o in old(ops) then (if old(ops)[o].admission.kind == kind then Existing else Rejected)
                    else Judge(CanAdmit(old(View()), o), view.session == old(sessionRevision), true))
      ensures v != Committed ==> Snap() == old(Snap())
      ensures v == Committed ==>
                Some(View()) == if kind == MessageKind then AdmitMessage(old(View()), o, entry, origin, text)
                                else AdmitCompact(old(View()), o)
      ensures v == Committed ==> Admitted(old(View()), View(), o, kind, entry, origin, text)
      ensures v == Committed && Accepted(old(View())) && IdentityFree(old(log), entry) ==> Accepted(View())
    {
      hide Accepted, IdentityFree, Admitted, Follows;
      ghost var before := View();
      ghost var start := Snap();
      SameFollows(start);
      ViewOlder(view, start);
      if o in ops {
        return if ops[o].admission.kind == kind then Existing else Rejected;
      }
      if sessionRevision != view.session {
        return if !session.open || session.current.Some? then Rejected else Raced;
      }
      if kind == MessageKind {
        InsertEntry(Entry(entry, Some(o), Input(origin, text)));
        InsertOperation(o, NewOperation(Admission(MessageKind, Some(entry))));
      } else {
        InsertOperation(o, NewOperation(Admission(CompactKind, None)));
      }
      ReplaceSession(sessionRevision, session.(current := Some(o)));
      RegisterInserted(start, Snap(), o);
      if Accepted(before) && IdentityFree(before.log, entry) {
        if kind == MessageKind {
          AdmitMessageAccepted(before, o, entry, origin, text);
        } else {
          AdmitCompactAccepted(before, o);
        }
      }
      AdmissionWrites(before, o, entry, origin, text);
      v := Committed;
    }

    // ---- Intents --------------------------------------------------------------------

    method BeginModelEffect(view: Snapshot, o: OpId, effect: Effect, suspended: Option<RunningRequest>) returns (v: Verdict)
      requires effect.ConversationEffect? || effect.MaintenanceEffect?
      requires Valid() && Follows(view, Snap())
      modifies this`ops, this`opRevisions
      ensures Valid() && Follows(old(Snap()), Snap())
      ensures v == Judge(IsQuiet(view.g, o) && IsQuiet(old(View()), o), OpMatches(view, old(Snap()), o), true)
      ensures v != Committed ==> Snap() == old(Snap())
      ensures v == Committed && effect.ConversationEffect? ==>
                Some(View()) == BeginConversation(old(View()), o, effect.result, effect.request, effect.model, effect.evidence)
      ensures v == Committed && effect.MaintenanceEffect? ==>
                Some(View()) == BeginMaintenance(old(View()), o, effect.result, effect.request, effect.model, suspended)
      ensures v == Committed && effect.ConversationEffect? ==> ConversationIntended(old(View()), View(), o, effect)
      ensures v == Committed && effect.MaintenanceEffect? ==> MaintenanceIntended(old(View()), View(), o, effect, suspended)
      ensures v == Committed && Accepted(old(View())) && IntentAgrees(View(), o) ==> Accepted(View())
    {
      hide Accepted, IntentAgrees, Follows, ConversationIntended, MaintenanceIntended;
      ghost var before := View();
      ghost var start := Snap();
      SameFollows(start);
      if !IsQuiet(view.g, o) || o !in ops || ops[o].status != Running || ops[o].active.Some? {
        return Rejected;
      }
      ViewKnows(view, start, o);
      if opRevisions[o] != view.ops[o] {
        return Raced;
      }
      var next := ops[o].(active := Some(effect));
      if effect.ConversationEffect? {
        if next.request.None? {
          next := next.(request := Some(RunningRequest(effect.request, effect.evidence.checkpoint, effect.evidence.boundary, [])));
        } else {
          next := next.(request := Some(next.request.value.(checkpoint := effect.evidence.checkpoint,
                                                            boundary := effect.evidence.boundary)));
        }
      } else if next.request.None? && suspended.Some? {
        next := next.(request := suspended);
      }
      ReplaceOperation(o, opRevisions[o], next);
      OpWritten(start, Snap(), o);
      if Accepted(before) && IntentAgrees(View(), o) {
        IntentAccepted(before, o, effect, next.request);
      }
      ModelIntentWrites(before, o, effect.result, effect.request, effect.model,
                        if effect.ConversationEffect? then effect.evidence else Evidence(None, 0, []), suspended);
      v := Committed;
    }

    method BeginRequestHookEffect(view: Snapshot, o: OpId, result: EntryId, r: RequestId, hook: HookId, ev: Evidence)
      returns (v: Verdict)
      requires Valid() && Follows(view, Snap())
      modifies this`ops, this`opRevisions
      ensures Valid() && Follows(old(Snap()), Snap())
      ensures v == Judge(IsQuiet(view.g, o) && IsQuiet(old(View()), o), OpMatches(view, old(Snap()), o), true)
      ensures v != Committed ==> Snap() == old(Snap())
      ensures v == Committed ==> Some(View()) == BeginRequestHook(old(View()), o, result, r, hook, ev)
      ensures v == Committed ==> RequestHookIntended(old(View()), View(), o, RequestHookEffect(result, r, hook, ev))
      ensures v == Committed && Accepted(old(View())) && IntentAgrees(View(), o) ==> Accepted(View())
    {
      hide Accepted, IntentAgrees, Follows, RequestHookIntended;
      ghost var before := View();
      ghost var start := Snap();
      SameFollows(start);
      if !IsQuiet(view.g, o) || o !in ops || ops[o].status != Running || ops[o].active.Some? {
        return Rejected;
      }
      ViewKnows(view, start, o);
      if opRevisions[o] != view.ops[o] {
        return Raced;
      }
      var next := ops[o].(active := Some(RequestHookEffect(result, r, hook, ev)));
      if next.request.None? {
        next := next.(request := Some(RunningRequest(r, ev.checkpoint, ev.boundary, [])));
      }
      ReplaceOperation(o, opRevisions[o], next);
      OpWritten(start, Snap(), o);
      if Accepted(before) && IntentAgrees(View(), o) {
        IntentAccepted(before, o, next.active.value, next.request);
      }
      RequestHookIntentWrites(before, o, result, r, hook, ev);
      v := Committed;
    }

    /** A tool intent takes its call's reservation, a hook intent a fresh identity. */
    method BeginPendingCallEffect(view: Snapshot, o: OpId, c: CallId, hook: Option<(EntryId, HookId)>, hooks: seq<HookId>)
      returns (v: Verdict)
      requires Valid() && Follows(view, Snap())
      modifies this`ops, this`opRevisions
      ensures Valid() && Follows(old(Snap()), Snap())
      ensures v == Judge(FirstPending(view.g, o, c) && FirstPending(old(View()), o, c), OpMatches(view, old(Snap()), o), true)
      ensures v != Committed ==> Snap() == old(Snap())
      ensures v == Committed ==> Some(View()) == if hook.Some? then BeginCallHook(old(View()), o, hook.value.0, c, hook.value.1)
                                                 else BeginTool(old(View()), o, c, hooks)
      ensures v == Committed && hook.Some? ==> CallIntended(old(View()), View(), o, CallHookEffect(hook.value.0, c, hook.value.1))
      ensures v == Committed && hook.None? ==>
                FirstCall(old(View()), o, c) && CallIntended(old(View()), View(), o, ToolEffect(old(ops)[o].pending[0].result, c, hooks))
      ensures v == Committed && Accepted(old(View())) && IntentAgrees(View(), o) ==> Accepted(View())
    {
      hide Accepted, IntentAgrees, Follows, CallIntended;
      ghost var before := View();
      ghost var start := Snap();
      SameFollows(start);
      if !FirstPending(view.g, o, c) || o !in ops || ops[o].status != Running || ops[o].active.Some? {
        return Rejected;
      }
      if |ops[o].pending| == 0 || ops[o].pending[0].call != c {
        return Rejected;
      }
      ViewKnows(view, start, o);
      if opRevisions[o] != view.ops[o] {
        return Raced;
      }
      var effect := if hook.Some? then CallHookEffect(hook.value.0, c, hook.value.1)
                    else ToolEffect(ops[o].pending[0].result, c, hooks);
      ReplaceOperation(o, opRevisions[o], ops[o].(active := Some(effect)));
      OpWritten(start, Snap(), o);
      assert before.ops[o].(active := Some(effect)) == before.ops[o].(active := Some(effect), request := before.ops[o].request);
      if Accepted(before) && IntentAgrees(View(), o) {
        IntentAccepted(before, o, effect, before.ops[o].request);
      }
      CallIntentWrites(before, o, c, if hook.Some? then hook.value.0 else 0, if hook.Some? then hook.value.1 else HookId(0, 0), hooks);
      v := Committed;
    }

    // ---- Results -----------------------------------------------------------------------

    /** Inserts the produced payload and lists the reservations of its calls. */
    method InsertProduced(o: OpId, a: Option<Produced>) returns (pending: seq<Pending>)
      modifies this`log
      ensures log == old(log) + AssistantEntries(o, a) && pending == CallsPending(o, a)
    {
      pending := [];
      if a.None? {
        return;
      }
      InsertEntry(AssistantEntry(o, a.value));
      var k := 0;
      while k < |a.value.calls|
        invariant 0 <= k <= |a.value.calls| && pending == CallsPending(o, a)[..k]
      {
        pending := pending + [Pending(a.value.id, a.value.calls[k].id, a.value.calls[k].result)];
        k := k + 1;
      }
    }

    /** The running result of a conversation effect. */
    method WriteConversation(o: OpId, a: Option<Produced>, signal: Option<EntryId>, opUsage: Totals, sessionUsage: Totals)
      requires Valid() && CommitModelResult(View(), o, a, signal).Some?
      requires opUsage == ChargeProduced(ops[o].usage, a) && sessionUsage == ChargeProduced(session.usage, a)
      modifies this
      ensures Valid() && Follows(old(Snap()), Snap())
      ensures Some(View()) == CommitModelResult(old(View()), o, a, signal)
    {
      hide ChargeProduced, CallsPending, SignalEntry, AssistantEntries, Follows;
      ghost var before := View();
      ghost var start := Snap();
      var pending := InsertProduced(o, a);
      if signal.Some? {
        InsertEntry(SignalEntry(signal.value, o, ContinuationSignal));
      }
      var next := ops[o].(active := None, usage := opUsage, pending := ops[o].pending + pending);
      if |next.pending| == 0 {
        next := next.(request := None);
      }
      ReplaceOperation(o, opRevisions[o], next);
      ReplaceSession(sessionRevision, session.(usage := sessionUsage));
      BothWritten(start, Snap(), o);
      ghost var after := CommitModelResult(before, o, a, signal).value;
      assert log == after.log;
      assert next == after.ops[o] && session == after.session;
    }

    /** One settled model effect: its running result, or the terminal that closes the Operation. */
    method CommitEffectResult(view: Snapshot, o: OpId, intent: Option<EntryId>, out: EffectOutcome) returns (v: Verdict)
      requires Valid() && Follows(view, Snap()) && o in view.g.ops
      modifies this
      ensures Valid() && Follows(old(Snap()), Snap())
      ensures v == Judge(ResultExpected(old(View()), o, intent, out), Matches(view, old(Snap()), o),
                         ResultExpected(old(View()), o, intent, out) ==> TotalsFit(old(View()), o, OutcomeContribution(out)))
      ensures v != Committed ==> Snap() == old(Snap())
      ensures v == Committed ==> Some(View()) == AfterOutcome(old(View()), o, out)
      ensures v == Committed ==> OutcomeWritten(old(View()), View(), o, out)
      ensures v == Committed && Accepted(old(View())) && OutcomePublishable(old(View()), o, out) ==> Accepted(View())
    {
      hide Accepted, Settle, CommitModelResult, CommitMaintenanceResult, AddTotals, OutcomePublishable, EndingContribution, OutcomeWritten;
      ghost var before := View();
      if !ResultExpected(View(), o, intent, out) {
        return Rejected;
      }
      if sessionRevision != view.session || opRevisions[o] != view.ops[o] {
        return Raced;
      }
      var contribution := OutcomeContribution(out);
      if !TotalsFit(View(), o, contribution) {
        return Overflowed;
      }
      match out {
        case ConversationOutput(a, signal) =>
          ConversationSome(before, o, a, signal);
          ProducedAdds(ops[o].usage, a);
          ProducedAdds(session.usage, a);
          WriteConversation(o, a, signal, AddTotals(ops[o].usage, contribution.value).value,
                            AddTotals(session.usage, contribution.value).value);
        case MaintenanceOutput =>
          MaintenanceSome(before, o);
          WriteMaintenance(o);
        case TerminalOutput(e) =>
          var ok := CommitTerminalSettlement(o, e);
      }
      OutcomeAccepted(before, o, out);
      OutcomeWrites(before, o, out);
      v := Committed;
    }

    /** The empty running result of a completed maintenance effect: both registers, no entry. */
    method WriteMaintenance(o: OpId)
      requires Valid() && CommitMaintenanceResult(View(), o).Some?
      modifies this
      ensures Valid() && Follows(old(Snap()), Snap())
      ensures Some(View()) == CommitMaintenanceResult(old(View()), o)
    {
      ReplaceOperation(o, opRevisions[o], ops[o].(active := None, unreportedMaintenance := true));
      ReplaceSession(sessionRevision, session);
    }

    /** One terminal call result, behind its tool intent or from a quiet Operation. */
    method CommitToolResult(view: Snapshot, o: OpId, c: CallId, out: Outcome, fromIntent: bool) returns (v: Verdict)
      requires Valid() && Follows(view, Snap()) && o in view.g.ops
      modifies this
      ensures Valid() && Follows(old(Snap()), Snap())
      ensures v == Judge(CallResult(old(View()), o, c, out, fromIntent).Some?, Matches(view, old(Snap()), o), true)
      ensures v != Committed ==> Snap() == old(Snap())
      ensures v == Committed ==> Some(View()) == CallResult(old(View()), o, c, out, fromIntent)
      ensures v == Committed ==> CallWritten(old(View()), View(), o, c, out, fromIntent)
      ensures v == Committed && Accepted(old(View())) && OutcomeFits(old(log), o, c, Recorded(old(ops)[o], out, fromIntent)) ==>
                Accepted(View())
    {
      hide Accepted, OutcomeFits, Follows, CallWritten;
      ghost var before := View();
      ghost var start := Snap();
      ViewKnows(view, start, o);
      SameFollows(start);
      if o !in ops || ops[o].status != Running {
        return Rejected;
      }
      var op := ops[o];
      var selection := (out.accepted, out.hooks);
      var index := IndexOfCall(op.pending, c);
      if fromIntent {
        if op.active.None? || !op.active.value.ToolEffect? || op.active.value.call != c || index < 0 ||
           op.active.value.result != op.pending[index].result {
          return Rejected;
        }
        selection := (true, op.active.value.hooks);
      } else if op.active.Some? || index < 0 {
        return Rejected;
      }
      if sessionRevision != view.session || opRevisions[o] != view.ops[o] {
        return Raced;
      }
      InsertEntry(ToolResultEntry(o, op.pending[index], Outcome(out.result, out.text, out.knowledge, selection.0, selection.1)));
      var next := op.(active := None, pending := op.pending[..index] + op.pending[index + 1..]);
      if |next.pending| == 0 {
        next := next.(request := None);
      }
      ReplaceOperation(o, opRevisions[o], next);
      ReplaceSession(sessionRevision, session);
      BothWritten(start, Snap(), o);
      if Accepted(before) && OutcomeFits(before.log, o, c, Recorded(op, out, fromIntent)) {
        ResultAccepted(before, o, index, Recorded(op, out, fromIntent));
      }
      CallWrites(before, o, c, out, fromIntent);
      v := Committed;
    }

    method CommitHookResult(view: Snapshot, o: OpId, result: EntryId, outcome: HookStatus, knowledge: Knowledge) returns (v: Verdict)
      requires Valid() && Follows(view, Snap()) && o in view.g.ops
      modifies this
      ensures Valid() && Follows(old(Snap()), Snap())
      ensures v == Judge(HookExpected(old(View()), o, result), Matches(view, old(Snap()), o), true)
      ensures v != Committed ==> Snap() == old(Snap())
      ensures v == Committed ==> Some(View()) == CommitHook(old(View()), o, outcome, knowledge)
      ensures v == Committed ==> HookWritten(old(View()), View(), o, outcome, knowledge)
      ensures v == Committed && Accepted(old(View())) && Unnamed(old(log), o, old(ops)[o].active.value) ==> Accepted(View())
    {
      hide Accepted, Unnamed, HookWritten, HookEntry, Follows;
      ghost var before := View();
      ghost var start := Snap();
      ViewKnows(view, start, o);
      SameFollows(start);
      if o !in ops || ops[o].status != Running || ops[o].active.None? || !IsHookEffect(ops[o].active.value) ||
         ops[o].active.value.result != result {
        return Rejected;
      }
      if sessionRevision != view.session || opRevisions[o] != view.ops[o] {
        return Raced;
      }
      var effect := ops[o].active.value;
      InsertEntry(HookEntry(o, effect, outcome, knowledge));
      var next := ops[o].(active := None);
      if effect.RequestHookEffect? && next.request.Some? {
        next := next.(request := Some(next.request.value.(hookResults := next.request.value.hookResults + [result])));
      }
      ReplaceOperation(o, opRevisions[o], next);
      ReplaceSession(sessionRevision, session);
      BothWritten(start, Snap(), o);
      if Accepted(before) && Unnamed(before.log, o, effect) {
        HookAccepted(before, o, outcome, knowledge);
      }
      HookWrites(before, o, outcome, knowledge);
      v := Committed;
    }

    // ---- Settlement -----------------------------------------------------------------------

    /** The entries of the terminal transition: payload, hook remnant, one interrupted result
        per remaining call, the interruption signal, the settlement. */
    method InsertEnding(o: OpId, e: Ending)
      requires o in ops
      modifies this`log
      ensures log == EndingLog(old(log), o, ops[o], e)
    {
      hide InterruptedEntry, SettlementEntry, SignalEntry, HookEntry, AssistantEntries, CallsPending;
      var op := ops[o];
      ghost var start := log;
      var calls := InsertProduced(o, e.assistant);
      if op.active.Some? && IsHookEffect(op.active.value) {
        InsertEntry(HookEntry(o, op.active.value, HookInterrupted, Unknown));
      }
      var opening := log;
      assert opening == EndingOpening(start, o, op, e);
      var remaining := op.pending + calls;
      var k := 0;
      while k < |remaining|
        invariant 0 <= k <= |remaining|
        invariant log == opening + InterruptedEntries(opening, o, op.active, remaining)[..k]
      {
        InsertEntry(InterruptedEntry(opening, o, op.active, remaining[k]));
        assert InterruptedEntries(opening, o, op.active, remaining)[..k + 1] ==
               InterruptedEntries(opening, o, op.active, remaining)[..k] + [InterruptedEntry(opening, o, op.active, remaining[k])];
        k := k + 1;
      }
      assert InterruptedEntries(opening, o, op.active, remaining)[..k] == InterruptedEntries(opening, o, op.active, remaining);
      if e.status == Interruption {
        InsertEntry(SignalEntry(e.signal, o, InterruptionSignal));
      }
      InsertEntry(SettlementEntry(o, op, e));
      assert log == EndingLog(start, o, op, e);
    }

    /** The terminal transition on records the caller may settle. */
    method CommitTerminalSettlement(o: OpId, e: Ending) returns (ok: bool)
      requires Valid() && IsRunning(View(), o)
      modifies this
      ensures Valid() && Follows(old(Snap()), Snap())
      ensures ok <==> TotalsFit(old(View()), o, EndingContribution(e))
      ensures View() == if ok then Settle(old(View()), o, e) else old(View())
      ensures ok ==> SettlementWritten(old(View()), View(), o, e)
      ensures !ok ==> Snap() == old(Snap())
    {
      hide EndingLog, AddTotals, EndingContribution, EndingWritten, SettlementWritten;
      var contribution := EndingContribution(e);
      if !TotalsFit(View(), o, contribution) {
        return false;
      }
      EndingAdds(ops[o].usage, e);
      EndingAdds(session.usage, e);
      ghost var before, op := View(), ops[o];
      ghost var start := log;
      var opUsage := AddTotals(ops[o].usage, contribution.value).value;
      var next := EndedOperation(ops[o], e).(usage := opUsage);
      InsertEnding(o, e);
      EndingGrows(start, o, op, e);
      ReplaceOperation(o, opRevisions[o], next);
      ReplaceSession(sessionRevision, session.(usage := AddTotals(session.usage, contribution.value).value, current := None));
      SettlementWrites(before, o, e);
      return true;
    }

    // ---- Checkpoints ---------------------------------------------------------------------------

    /** The checkpoint part of a maintenance publication; its rebuilt boundary is read off
        the entries of the view. */
    method CommitContextCheckpoint(view: seq<Entry>, o: OpId, plan: Plan, carrier: Carrier) returns (ok: bool)
      requires Valid() && IsRunning(View(), o) && view == log
      modifies this
      ensures Valid() && Follows(old(Snap()), Snap())
      ensures ok <==> TotalsFit(old(View()), o, FactsContribution(carrier.facts))
      ensures ok ==> Some(View()) == CommitCheckpoint(old(View()), o, plan, carrier)
      ensures ok ==> CheckpointWritten(old(View()), View(), o, plan, carrier)
      ensures !ok ==> Snap() == old(Snap())
    {
      hide FactsContribution, AddTotals, RebuiltBoundary, CheckpointWritten;
      ghost var before := View();
      var contribution := FactsContribution(carrier.facts);
      if !TotalsFit(View(), o, contribution) {
        return false;
      }
      FactsAdd(ops[o].usage, carrier.facts);
      FactsAdd(session.usage, carrier.facts);
      var rebuilt := RebuiltBoundary(view, plan.boundary, plan.id);
      var next := ops[o].(usage := AddTotals(ops[o].usage, contribution.value).value, unreportedMaintenance := false);
      if next.request.Some? {
        next := next.(request := Some(next.request.value.(checkpoint := Some(plan.id), boundary := rebuilt)));
      } else if next.admission.kind == MessageKind && carrier.source.Some? {
        next := next.(request := Some(RunningRequest(carrier.source.value, Some(plan.id), rebuilt, [])));
      }
      InsertEntry(CheckpointEntry(o, plan, carrier));
      ReplaceOperation(o, opRevisions[o], next);
      ReplaceSession(sessionRevision, session.(checkpoint := Some(plan.id), usage := AddTotals(session.usage, contribution.value).value));
      CheckpointWrites(before, o, plan, carrier);
      return true;
    }

    /** One maintenance publication in one transaction. */
    method CommitPublication(view: Snapshot, o: OpId, p: Publication) returns (v: Verdict)
      requires Valid() && Follows(view, Snap()) && o in view.g.ops
      modifies this
      ensures Valid() && Follows(old(Snap()), Snap())
      ensures v == Judge(IsRunning(old(View()), o), Matches(view, old(Snap()), o),
                         IsRunning(old(View()), o) ==> TotalsFit(old(View()), o, PublicationContribution(p)))
      ensures v != Committed ==> Snap() == old(Snap())
      ensures v == Committed ==> View() == AfterPublication(old(View()), o, p)
      ensures v == Committed ==> PublicationWritten(old(View()), View(), o, p)
      ensures v == Committed && Accepted(old(View())) && Publishable(old(View()), o, p) ==> Accepted(View())
    {
      hide Accepted, Settle, CommitCheckpoint, EndingContribution, FactsContribution, AddTotals, Publishable, PublicationWritten,
        SettlementWritten, CheckpointWritten;
      ghost var before := View();
      ghost var start := Snap();
      if o !in ops || ops[o].status != Running {
        return Rejected;
      }
      if sessionRevision != view.session || opRevisions[o] != view.ops[o] {
        return Raced;
      }
      var ok;
      match p {
        case Interrupting(e) =>
          ok := CommitTerminalSettlement(o, e);
        case NothingManual(e) =>
          ok := CommitTerminalSettlement(o, e);
        case Checkpointing(plan, carrier) =>
          ok := CommitContextCheckpoint(view.g.log, o, plan, carrier);
        case CheckpointingManual(plan, carrier, settlement, signal) =>
          ok := CommitContextCheckpoint(view.g.log, o, plan, carrier);
          if ok {
            ghost var middle := Snap();
            CheckpointRunsOn(before, o, plan, carrier);
            SuccessFits(View(), o, settlement, signal);
            ok := CommitTerminalSettlement(o, ManualSuccess(settlement, signal));
            FollowsOn(start, middle, Snap());
          }
      }
      if !ok {
        return Overflowed;
      }
      PublicationAccepted(before, o, p);
      PublicationWrites(before, o, p);
      v := Committed;
    }

    /** The operationless signal: it is written beside the unchanged Session register, whose
        advanced revision makes every older view stale. */
    method DeliverClosedCompletion(view: Snapshot, entry: EntryId, text: Text) returns (v: Verdict)
      requires Valid() && Follows(view, Snap())
      modifies this`log, this`session, this`sessionRevision
      ensures Valid() && Follows(old(Snap()), Snap())
      ensures v == Judge(true, view.session == old(sessionRevision), true)
      ensures v != Committed ==> Snap() == old(Snap())
      ensures v == Committed ==> View() == RecordCompletion(old(View()), entry, text) && !Follows(Snap(), old(Snap()))
      ensures v == Committed ==> CompletionWritten(old(View()), View(), entry, text)
      ensures v == Committed && Accepted(old(View())) && Unused(old(View()), entry) ==> Accepted(View())
    {
      hide Accepted, CompletionWritten;
      ghost var before := View();
      if sessionRevision != view.session {
        return Raced;
      }
      InsertEntry(Entry(entry, None, Signal(CompletionSignal, None, text)));
      ReplaceSession(sessionRevision, session);
      if Accepted(before) && Unused(before, entry) {
        CompletionAccepted(before, entry, text);
      }
      CompletionWrites(before, entry, text);
      v := Committed;
    }

    // ---- Recovery ---------------------------------------------------------------------------

    /** One running Operation's interruption, in a transaction of its own; a settled one is
        left alone. */
    method RecoverRunningOperation(o: OpId, signal: EntryId, settlement: EntryId)
      requires Valid() && o in ops
      modifies this
      ensures Valid() && Follows(old(Snap()), Snap())
      ensures View() == if IsRunning(old(View()), o) then Settle(old(View()), o, RecoveryEnding(signal, settlement)) else old(View())
      ensures IsRunning(old(View()), o) ==> SettlementWritten(old(View()), View(), o, RecoveryEnding(signal, settlement))
      ensures !IsRunning(old(View()), o) ==> Snap() == old(Snap())
    {
      hide Settle, TotalsFit, EndingContribution, RecoveryEnding, SettlementWritten;
      if ops[o].status == Running {
        RecoveryFits(View(), o, signal, settlement);
        var ok := CommitTerminalSettlement(o, RecoveryEnding(signal, settlement));
      }
    }

    /** Restart recovery of a Session whose read validated: every running Operation settles. */
    method Recover(signal: EntryId, settlement: EntryId)
      requires Valid() && Accepted(View())
      modifies this
      ensures Valid() && Follows(old(Snap()), Snap())
      ensures View() == Recovered(old(View()), signal, settlement)
      ensures StoppedOutside(View(), {})
    {
      hide Accepted, Settle, Recovered, RecoveryEnding, Follows, RecoveredSoFar, StoppedOutside, IsRunning;
      ghost var first := Snap();
      ghost var start := View();
      SameFollows(first);
      NothingRecovered(start, signal, settlement, ops.Keys);
      var left := ops.Keys;
      while left != {}
        invariant Valid() && left <= ops.Keys && ops.Keys == start.ops.Keys
        invariant RecoveredSoFar(start, View(), left, signal, settlement)
        invariant Follows(first, Snap())
        decreases |left|
      {
        var o :| o in left;
        ghost var middle := Snap();
        RecoverRunningOperation(o, signal, settlement);
        RecoveryAdvances(start, middle.g, View(), left, o, signal, settlement);
        FollowsOn(first, middle, Snap());
        left := left - {o};
      }
      AllRecovered(start, View(), signal, settlement);
    }
  }

  // ---- What the methods rest on --------------------------------------------------------------

  /** An accepted graph stays readable after this outcome. */
  ghost predicate OutcomePublishable(g: Graph, o: OpId, out: EffectOutcome)
    requires IsRunning(g, o)
  {
    match out
    case ConversationOutput(a, signal) => g.ops[o].active.Some? && g.ops[o].active.value.ConversationEffect? && ModelResultFits(g, o, a, signal)
    case MaintenanceOutput => true
    case TerminalOutput(e) => EndingFits(g.log, o, g.ops[o], e)
  }

  ghost predicate Publishable(g: Graph, o: OpId, p: Publication)
    requires IsRunning(g, o)
  {
    match p
    case Interrupting(e) => EndingFits(g.log, o, g.ops[o], e)
    case NothingManual(e) => EndingFits(g.log, o, g.ops[o], e)
    case Checkpointing(plan, carrier) => CheckpointPlanFits(g, o, plan, carrier)
    case CheckpointingManual(plan, carrier, settlement, signal) =>
      CheckpointPlanFits(g, o, plan, carrier) &&
      var mid := CommitCheckpoint(g, o, plan, carrier).value;
      EndingFits(mid.log, o, mid.ops[o], ManualSuccess(settlement, signal))
  }

  /** An identity neither committed nor reserved. */
  ghost predicate Unused(g: Graph, id: EntryId) {
    IdentityFree(g.log, id) && forall o :: o in g.ops && g.ops[o].active.Some? ==> g.ops[o].active.value.result != id
  }

  /** The committed intent and the published request agree with the log. */
  ghost predicate IntentAgrees(g: Graph, o: OpId) {
    && o in g.ops && g.ops[o].active.Some? && EffectAgrees(g.log, o, g.ops[o], g.ops[o].active.value)
    && (g.ops[o].request.Some? ==> RequestAgrees(g.session, g.log, o, g.ops[o].request.value))
  }

  lemma IntentAccepted(g: Graph, o: OpId, effect: Effect, request: Option<RunningRequest>)
    requires IsQuiet(g, o) && Accepted(g)
    requires IntentAgrees(WithOp(g, o, g.ops[o].(active := Some(effect), request := request)), o)
    ensures Accepted(WithOp(g, o, g.ops[o].(active := Some(effect), request := request)))
  {
    hide Accepted, EffectAgrees, RequestAgrees;
    BeginAccepted(g, o, effect, request);
  }

  lemma ViewKnows(view: Snapshot, s: Snapshot, o: OpId)
    requires Follows(view, s) && o in view.g.ops
    ensures o in view.ops && o in s.ops && o in s.g.ops
  {
  }

  /** A view the Session register has not left behind knows every Operation. */
  lemma ViewOlder(view: Snapshot, s: Snapshot)
    requires Follows(view, s)
    ensures view.session == s.session ==> view.g.ops.Keys == s.g.ops.Keys && view.g.session == s.g.session
  {
  }

  /** A new register, entries appended and the Session register replaced. */
  lemma RegisterInserted(s: Snapshot, s': Snapshot, o: OpId)
    requires s.ops.Keys == s.g.ops.Keys && o !in s.g.ops && o in s'.g.ops
    requires s'.session == s.session + 1 && s'.ops == s.ops[o := 1] && s.g.log <= s'.g.log
    requires s'.g.ops == s.g.ops[o := s'.g.ops[o]]
    ensures Follows(s, s')
  {
  }

  lemma SameFollows(s: Snapshot)
    requires s.ops.Keys == s.g.ops.Keys
    ensures Follows(s, s)
  {
  }

  /** Both registers replaced under their next revisions, entries appended. */
  lemma BothWritten(s: Snapshot, s': Snapshot, o: OpId)
    requires s.ops.Keys == s.g.ops.Keys && o in s.g.ops && o in s'.g.ops
    requires s'.session == s.session + 1 && s'.ops == s.ops[o := s.ops[o] + 1] && s.g.log <= s'.g.log
    requires s'.g.ops == s.g.ops[o := s'.g.ops[o]]
    ensures Follows(s, s')
  {
  }

  /** One register replaced under its next revision. */
  lemma OpWritten(s: Snapshot, s': Snapshot, o: OpId)
    requires s.ops.Keys == s.g.ops.Keys && o in s.g.ops && o in s'.g.ops
    requires s'.session == s.session && s'.ops == s.ops[o := s.ops[o] + 1]
    requires s'.g.session == s.g.session && s'.g.log == s.g.log && s'.g.ops == s.g.ops[o := s'.g.ops[o]]
    ensures Follows(s, s')
  {
  }

  lemma ConversationSome(g: Graph, o: OpId, a: Option<Produced>, signal: Option<EntryId>)
    requires IsRunning(g, o) && g.ops[o].active.Some? && g.ops[o].active.value.ConversationEffect?
    ensures CommitModelResult(g, o, a, signal).Some?
  {
    hide ChargeProduced, CallsPending;
  }

  lemma OutcomeAccepted(g: Graph, o: OpId, out: EffectOutcome)
    requires IsRunning(g, o)
    ensures Accepted(g) && OutcomePublishable(g, o, out) && AfterOutcome(g, o, out).Some? ==> Accepted(AfterOutcome(g, o, out).value)
  {
    hide Accepted, Settle, CommitModelResult, CommitMaintenanceResult, ModelResultFits, EndingFits;
    if Accepted(g) && OutcomePublishable(g, o, out) && AfterOutcome(g, o, out).Some? {
      match out
      case ConversationOutput(a, signal) => ModelResultAccepted(g, o, a, signal);
      case MaintenanceOutput => MaintenanceResultAccepted(g, o);
      case TerminalOutput(e) => SettleAccepted(g, o, e);
    }
  }

  lemma PublicationAccepted(g: Graph, o: OpId, p: Publication)
    requires IsRunning(g, o)
    ensures Accepted(g) && Publishable(g, o, p) ==> Accepted(AfterPublication(g, o, p))
  {
    hide Accepted, Settle, CommitCheckpoint, EndingFits, CheckpointPlanFits;
    if Accepted(g) && Publishable(g, o, p) {
      match p
      case Interrupting(e) => SettleAccepted(g, o, e);
      case NothingManual(e) => SettleAccepted(g, o, e);
      case Checkpointing(plan, carrier) =>
        CheckpointAccepted(g, o, plan, carrier);
      case CheckpointingManual(plan, carrier, settlement, signal) =>
        CheckpointRunsOn(g, o, plan, carrier);
        CheckpointAccepted(g, o, plan, carrier);
        SettleAccepted(CommitCheckpoint(g, o, plan, carrier).value, o, ManualSuccess(settlement, signal));
    }
  }

  lemma MaintenanceSome(g: Graph, o: OpId)
    requires IsRunning(g, o) && g.ops[o].active.Some? && g.ops[o].active.value.MaintenanceEffect?
    ensures CommitMaintenanceResult(g, o).Some?
  {
  }

  lemma ProducedAdds(t: Totals, a: Option<Produced>)
    ensures var c := UsageContribution(ProducedUsage(a));
            AddTotals(t, c).Some? ==> AddTotals(t, c).value == ChargeProduced(t, a)
  {
    hide ChargeProduced, Merge;
    ProducedCharges(t, a);
  }

  lemma EndingAdds(t: Totals, e: Ending)
    ensures EndingContribution(e).Some? && AddTotals(t, EndingContribution(e).value).Some? ==>
              AddTotals(t, EndingContribution(e).value).value == EndingUsage(t, e)
  {
    hide EndingContribution, EndingUsage, Merge;
    if EndingContribution(e).Some? {
      EndingCharges(t, e);
    }
  }

  lemma FactsAdd(t: Totals, facts: seq<Fact>)
    ensures FactsContribution(facts).Some? && AddTotals(t, FactsContribution(facts).value).Some? ==>
              AddTotals(t, FactsContribution(facts).value).value == ChargeFacts(t, facts)
  {
    hide FactsContribution, ChargeFacts, Merge;
    if FactsContribution(facts).Some? {
      FactsCharge(t, facts);
    }
  }

  lemma EndingGrows(log: seq<Entry>, o: OpId, op: Operation, e: Ending)
    ensures log <= EndingLog(log, o, op, e) && |log| < |EndingLog(log, o, op, e)|
  {
    EndingLogSplits(log, o, op, e);
  }

  lemma SuccessFits(g: Graph, o: OpId, settlement: EntryId, signal: EntryId)
    requires o in g.ops
    ensures TotalsFit(g, o, EndingContribution(ManualSuccess(settlement, signal)))
  {
    MergeNothing(map[]);
    NothingFits(g.ops[o].usage);
    NothingFits(g.session.usage);
  }

  lemma RecoveryFits(g: Graph, o: OpId, signal: EntryId, settlement: EntryId)
    requires o in g.ops
    ensures TotalsFit(g, o, EndingContribution(RecoveryEnding(signal, settlement)))
  {
    hide RECOVERY_DETAIL;
    MergeNothing(map[]);
    NothingFits(g.ops[o].usage);
    NothingFits(g.session.usage);
  }

  ghost predicate StoppedOutside(g: Graph, left: set<OpId>) {
    forall o :: o in g.ops && o !in left ==> g.ops[o].status != Running
  }

  /** The Operations passed so far are settled, by at most the one settlement there is to do. */
  ghost predicate RecoveredSoFar(start: Graph, g: Graph, left: set<OpId>, signal: EntryId, settlement: EntryId) {
    && g.ops.Keys == start.ops.Keys && StoppedOutside(g, left)
    && (g == start || (g == Recovered(start, signal, settlement) && StoppedOutside(g, {})))
  }

  lemma NothingRecovered(start: Graph, signal: EntryId, settlement: EntryId, left: set<OpId>)
    requires left == start.ops.Keys
    ensures RecoveredSoFar(start, start, left, signal, settlement)
  {
    hide Recovered;
  }

  lemma RecoveryAdvances(start: Graph, g: Graph, g': Graph, left: set<OpId>, o: OpId, signal: EntryId, settlement: EntryId)
    requires Accepted(start) && o in g.ops && RecoveredSoFar(start, g, left, signal, settlement)
    requires g' == if IsRunning(g, o) then Settle(g, o, RecoveryEnding(signal, settlement)) else g
    ensures RecoveredSoFar(start, g', left - {o}, signal, settlement) && g'.ops.Keys == g.ops.Keys
  {
    hide Accepted, Settle, Recovered, RecoveryEnding;
    if IsRunning(g, o) {
      RecoveredIs(start, o, signal, settlement);
    }
  }

  lemma AllRecovered(start: Graph, g: Graph, signal: EntryId, settlement: EntryId)
    requires Accepted(start) && RecoveredSoFar(start, g, {}, signal, settlement)
    ensures g == Recovered(start, signal, settlement) && StoppedOutside(g, {})
  {
    hide Accepted, Settle, RecoveryEnding;
  }

  lemma RecoveredIs(g: Graph, o: OpId, signal: EntryId, settlement: EntryId)
    requires Accepted(g) && IsRunning(g, o)
    ensures var g' := Settle(g, o, RecoveryEnding(signal, settlement));
            g' == Recovered(g, signal, settlement) && g'.ops.Keys == g.ops.Keys && StoppedOutside(g', {})
  {
    hide Accepted, EndingLog;
    RunningIsCurrent(g);
  }

  lemma RunningIsCurrent(g: Graph)
    requires Accepted(g)
    ensures forall o, x :: o in g.ops && x in g.ops && g.ops[o].status == Running && g.ops[x].status == Running ==> o == x
    ensures forall o :: o in g.ops && g.ops[o].status == Running ==> g.session.current == Some(o)
    ensures g.session.current.Some? ==> IsRunning(g, g.session.current.value)
  {
  }

  // ---- Fork -----------------------------------------------------------------------------------

  /** The identities handed out for the copied entries so far. */
  ghost predicate HandedEntries(before: seq<Entry>, entryIds: map<EntryId, EntryId>, rho: EntryId -> EntryId) {
    forall id :: (id in entryIds <==> WasCopied(before, id)) && (id in entryIds ==> entryIds[id] == rho(id))
  }

  /** The identities handed out for the reservations so far. */
  ghost predicate HandedResults(before: seq<Entry>, resultIds: map<EntryId, EntryId>, rho: EntryId -> EntryId) {
    && (forall i, k :: IsReservation(before, i, k) ==> Reserved(before, i, k) in resultIds)
    && (forall id :: id in resultIds ==> resultIds[id] == rho(id))
  }

  function Renamed(entryIds: map<EntryId, EntryId>, id: EntryId): EntryId {
    if id in entryIds then entryIds[id] else id
  }

  function RenamedEvidence(entryIds: map<EntryId, EntryId>, ev: Evidence): Evidence {
    Evidence(if ev.checkpoint.Some? then Some(Renamed(entryIds, ev.checkpoint.value)) else None, Renamed(entryIds, ev.boundary), ev.hooks)
  }

  lemma RenamedIsRemap(before: seq<Entry>, entryIds: map<EntryId, EntryId>, rho: EntryId -> EntryId)
    requires HandedEntries(before, entryIds, rho)
    ensures forall id :: Renamed(entryIds, id) == Remap(before, rho, id)
    ensures forall ev :: RenamedEvidence(entryIds, ev) == RemapEvidence(before, rho, ev)
  {
  }

  lemma HandedGrows(before: seq<Entry>, e: Entry, entryIds: map<EntryId, EntryId>, rho: EntryId -> EntryId)
    requires HandedEntries(before, entryIds, rho)
    ensures Eligible(e.body) ==> HandedEntries(before + [e], entryIds[e.id := rho(e.id)], rho)
    ensures !Eligible(e.body) ==> HandedEntries(before + [e], entryIds, rho)
  {
    var after := before + [e];
    forall id ensures WasCopied(after, id) <==> WasCopied(before, id) || (Eligible(e.body) && e.id == id) {
      if WasCopied(before, id) {
        var i :| 0 <= i < |before| && before[i].id == id && Eligible(before[i].body);
        assert after[i] == before[i];
      }
      if Eligible(e.body) && e.id == id {
        assert after[|before|] == e;
      }
    }
  }

  lemma PublisherCopied(log: seq<Entry>, n: nat)
    requires Copyable(log) && n < |log| && log[n].body.ToolResult?
    ensures WasCopied(log[..n], log[n].body.assistant)
    ensures exists i, k :: IsReservation(log[..n], i, k) && Reserved(log[..n], i, k) == log[n].id
  {
    assert ResultAnswers(log, log[n]);
    var i, k :| IsReservation(log, i, k) && Reserved(log, i, k) == log[n].id && Settles(log[n], log[i], k);
    assert i < n && log[..n][i] == log[i];
    assert IsReservation(log[..n], i, k);
  }

  /** A copied assistant reserves a fresh identity for each of its calls. */
  method ReserveCopies(e: Entry, ghost before: seq<Entry>, resultIds: map<EntryId, EntryId>, rho: EntryId -> EntryId)
    returns (calls: seq<Call>, resultIds': map<EntryId, EntryId>)
    requires e.body.Assistant? && HandedResults(before, resultIds, rho)
    ensures calls == CopyCalls(rho, e.body.calls) && HandedResults(before + [e], resultIds', rho)
  {
    calls, resultIds' := [], resultIds;
    var k := 0;
    while k < |e.body.calls|
      invariant 0 <= k <= |e.body.calls|
      invariant calls == CopyCalls(rho, e.body.calls)[..k]
      invariant HandedResults(before, resultIds', rho)
      invariant forall x :: 0 <= x < k ==> e.body.calls[x].result in resultIds'
    {
      var fresh' := rho(e.body.calls[k].result);
      calls := calls + [Call(e.body.calls[k].id, fresh')];
      resultIds' := resultIds'[e.body.calls[k].result := fresh'];
      k := k + 1;
    }
    forall i, x | IsReservation(before + [e], i, x) ensures Reserved(before + [e], i, x) in resultIds' {
      ReservationSnoc(before, e, i, x);
    }
  }

  lemma ResultsHandedGrow(before: seq<Entry>, e: Entry, resultIds: map<EntryId, EntryId>, rho: EntryId -> EntryId)
    requires HandedResults(before, resultIds, rho) && !e.body.Assistant?
    ensures HandedResults(before + [e], resultIds, rho)
  {
    forall i, x | IsReservation(before + [e], i, x) ensures Reserved(before + [e], i, x) in resultIds {
      ReservationSnoc(before, e, i, x);
    }
  }

  /** The copy loop of a fork: it updates the identity maps as it inserts, and fails only
      on a result whose publisher it has not copied. */
  method CopyForkPrefix(log: seq<Entry>, rho: EntryId -> EntryId) returns (copied: Option<seq<Entry>>, checkpoint: Option<EntryId>)
    ensures copied.Some? ==> copied.value == Copied(log, rho) && checkpoint == NewestCheckpoint(Copied(log, rho))
    ensures Copyable(log) ==> copied.Some?
  {
    hide Copyable, WasCopied, Injective;
    var entryIds: map<EntryId, EntryId>, resultIds: map<EntryId, EntryId>, out: seq<Entry> := map[], map[], [];
    checkpoint := None;
    NothingHanded(rho);
    var n := 0;
    while n < |log|
      invariant 0 <= n <= |log|
      invariant out == Copied(log[..n], rho) && checkpoint == NewestCheckpoint(out)
      invariant HandedEntries(log[..n], entryIds, rho) && HandedResults(log[..n], resultIds, rho)
    {
      var e := log[n];
      ghost var before := log[..n];
      assert log[..n + 1] == before + [e] && log[..n + 1][..n] == before;
      RenamedIsRemap(before, entryIds, rho);
      HandedGrows(before, e, entryIds, rho);
      var body := e.body;
      var id := rho(e.id);
      if e.body.Assistant? {
        var calls;
        calls, resultIds := ReserveCopies(e, before, resultIds, rho);
        body := Assistant(e.body.status, e.body.text, e.body.source, None, calls, e.body.request,
                          RenamedEvidence(entryIds, e.body.evidence));
      } else {
        ResultsHandedGrow(before, e, resultIds, rho);
        if e.body.ToolResult? {
          if Copyable(log) {
            PublisherCopied(log, n);
          }
          if e.body.assistant !in entryIds || e.id !in resultIds {
            return None, None;
          }
          id := resultIds[e.id];
          body := ToolResult(e.body.answers, entryIds[e.body.assistant], e.body.result, e.body.text, e.body.knowledge,
                             e.body.accepted, e.body.hooks);
        } else if e.body.Checkpoint? {
          body := Checkpoint(e.body.messages, Renamed(entryIds, e.body.boundary), ClearedFacts(e.body.facts), e.body.consumed,
                             RenamedEvidence(entryIds, e.body.evidence));
          checkpoint := Some(id);
        }
      }
      if Eligible(e.body) {
        out := out + [Entry(id, None, body)];
        assert Entry(id, None, body) == CopyEntry(before, e, rho);
        entryIds := entryIds[e.id := id];
      }
      n := n + 1;
    }
    assert log[..n] == log;
    copied := Some(out);
  }

  lemma NothingHanded(rho: EntryId -> EntryId)
    ensures HandedEntries([], map[], rho) && HandedResults([], map[], rho)
  {
  }
}
