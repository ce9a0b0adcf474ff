/** The terminal settlement of a running Operation leaves the Session accepted. */
module Settling {
  import opened Records
  import opened Validator
  import opened Transactions
  import opened LogLemmas
  import opened LogFacts
  import opened Growth
  import opened Appends

  // ---- Entries that run no hook, publish nothing, and carry no facts -----------

  /** Interrupted results and signals of one Operation. */
  predicate Inert(e: Entry, o: OpId) {
    Owned(e, o) && (e.body.ToolResult? || e.body.Signal?)
  }

  predicate AllInert(es: seq<Entry>, o: OpId) {
    forall i :: 0 <= i < |es| ==> Inert(es[i], o)
  }

  ghost predicate SameHistory(log: seq<Entry>, log': seq<Entry>, o: OpId) {
    && Published(log', o) == Published(log, o)
    && SettlementCount(log', o) == SettlementCount(log, o)
    && OperationUsage(log', o) == OperationUsage(log, o)
    && SessionUsage(log') == SessionUsage(log)
    && (forall b :: HooksOf(log', o, b) == HooksOf(log, o, b))
    && (forall r :: ProducerUsed(log', o, r) ==> ProducerUsed(log, o, r))
    && (forall c, b :: RefsResolve(log, c, b) ==> RefsResolve(log', c, b))
  }

  lemma InertHistory(log: seq<Entry>, e: Entry, o: OpId)
    requires Inert(e, o)
    ensures SameHistory(log, log + [e], o)
  {
    var log' := log + [e];
    Snoc(log, e, o);
    forall b ensures HooksOf(log', o, b) == HooksOf(log, o, b) {
      SnocHooks(log, e, o, b);
    }
    ProducersGrow(log, e, o);
    forall c, b | RefsResolve(log, c, b) ensures RefsResolve(log', c, b) {
      RefsGrow(log, e, c, b);
    }
  }

  lemma ProducersGrow(log: seq<Entry>, e: Entry, o: OpId)
    requires FactsOf(e.body) == []
    ensures forall r :: ProducerUsed(log + [e], o, r) ==> ProducerUsed(log, o, r)
  {
    var log' := log + [e];
    forall r | ProducerUsed(log', o, r) ensures ProducerUsed(log, o, r) {
      var i, k :| 0 <= i < |log'| && Owned(log'[i], o) && 0 <= k < |FactsOf(log'[i].body)| &&
                  FactsOf(log'[i].body)[k].request == r;
      assert log[i] == log'[i];
    }
  }

  lemma {:induction false} AllInertHistory(log: seq<Entry>, es: seq<Entry>, o: OpId)
    requires AllInert(es, o)
    ensures SameHistory(log, log + es, o)
  {
    if |es| == 0 {
      assert log + es == log;
    } else {
      var n := |es| - 1;
      AllInertHistory(log, es[..n], o);
      InertHistory(log + es[..n], es[n], o);
      assert log + es == (log + es[..n]) + [es[n]];
    }
  }

  // ---- The interrupted results -----------------------------------------------------

  function InterruptedOutcome(base: seq<Entry>, o: OpId, active: Option<Effect>, p: Pending): Outcome {
    var b := InterruptedEntry(base, o, active, p).body;
    Outcome(b.result, b.text, b.knowledge, b.accepted, b.hooks)
  }

  lemma InterruptedSplit(base: seq<Entry>, o: OpId, active: Option<Effect>, calls: seq<Pending>)
    requires |calls| > 0
    ensures InterruptedEntries(base, o, active, calls)[0] == InterruptedEntry(base, o, active, calls[0])
    ensures InterruptedEntries(base, o, active, calls)[1..] == InterruptedEntries(base, o, active, calls[1..])
  {
  }

  lemma {:induction false} InterruptAll(fork: bool, adm: map<OpId, Admission>, log: seq<Entry>, base: seq<Entry>, o: OpId,
                                        active: Option<Effect>, calls: seq<Pending>, es: seq<Entry>, log': seq<Entry>)
    requires LogAccepted(fork, adm, log) && o in adm
    requires calls == Unresolved(Published(log, o), log, o)
    requires forall p :: p in calls ==> OutcomeFits(log, o, p.call, InterruptedOutcome(base, o, active, p))
    requires es == InterruptedEntries(base, o, active, calls) && log' == log + es
    ensures LogAccepted(fork, adm, log') && Unresolved(Published(log', o), log', o) == []
    decreases |calls|
  {
    hide LogAccepted, OutcomeFits, Published, Unresolved, InterruptedOutcome;
    if |calls| == 0 {
      assert log' == log;
    } else {
      InterruptedSplit(base, o, active, calls);
      var next := log + [es[0]];
      InterruptOne(fork, adm, log, base, o, active, calls);
      assert log' == next + es[1..];
      InterruptAll(fork, adm, next, base, o, active, calls[1..], es[1..], log');
    }
  }

  lemma LogParts(fork: bool, adm: map<OpId, Admission>, log: seq<Entry>)
    requires LogAccepted(fork, adm, log)
    ensures LogConsistent(log)
  {
  }

  lemma InterruptOne(fork: bool, adm: map<OpId, Admission>, log: seq<Entry>, base: seq<Entry>, o: OpId,
                     active: Option<Effect>, calls: seq<Pending>)
    requires LogAccepted(fork, adm, log) && o in adm && |calls| > 0
    requires calls == Unresolved(Published(log, o), log, o)
    requires forall p :: p in calls ==> OutcomeFits(log, o, p.call, InterruptedOutcome(base, o, active, p))
    ensures var log' := log + [InterruptedEntry(base, o, active, calls[0])];
            && LogAccepted(fork, adm, log')
            && calls[1..] == Unresolved(Published(log', o), log', o)
            && forall p :: p in calls[1..] ==> OutcomeFits(log', o, p.call, InterruptedOutcome(base, o, active, p))
  {
    hide OutcomeFits, Published, Unresolved, LogAccepted, ResultText, HookUnknown;
    LogParts(fork, adm, log);
    var e := InterruptedEntry(base, o, active, calls[0]);
    AppendResult(fork, adm, log, o, calls[0], InterruptedOutcome(base, o, active, calls[0]));
    UnresolvedSettle(log, e, o, 0);
    assert WithoutIndex(calls, 0) == calls[1..];
    forall p | p in calls[1..] ensures OutcomeFits(log + [e], o, p.call, InterruptedOutcome(base, o, active, p)) {
      OutcomeGrows(log, e, o, p.call, InterruptedOutcome(base, o, active, p));
    }
  }

  lemma OutcomeGrows(log: seq<Entry>, e: Entry, o: OpId, c: CallId, out: Outcome)
    requires OutcomeFits(log, o, c, out) && !IsHookResult(e, o, ForCall(c))
    ensures OutcomeFits(log + [e], o, c, out)
  {
    SnocSucceeded(log, e, o, c);
    var log' := log + [e];
    assert SucceededHooks(log', o, c) == SucceededHooks(log, o, c);
    forall i | 0 <= i < |log'| && IsHookResult(log'[i], o, ForCall(c))
      ensures log'[i].body.outcome == HookInterrupted ==> out.result == ResultInterrupted
      ensures log'[i].body.outcome == HookFailed ==> out.result == ResultInterrupted || out.result == ResultError
    {
      assert IsHookResult(log[i], o, ForCall(c));
    }
  }

  // ---- What a terminal publication may bring -----------------------------------------

  /** An identity no record carries, reserves, or is about to. */
  ghost predicate FreshAside(log: seq<Entry>, op: Operation, a: Option<Produced>, id: EntryId) {
    && IdentityFree(log, id)
    && (op.active.Some? ==> op.active.value.result != id)
    && (a.Some? ==> forall k :: 0 <= k < |a.value.calls| ==> a.value.calls[k].result != id)
  }

  /** A produced entry takes the conversation effect's identity, request and evidence. */
  ghost predicate ProducedFits(log: seq<Entry>, o: OpId, op: Operation, a: Produced) {
    && op.active.Some? && op.active.value.ConversationEffect?
    && a.id == op.active.value.result && a.request == op.active.value.request && a.evidence == op.active.value.evidence
    && FreshCalls(log, o, a.id, a.calls)
  }

  ghost predicate FactsFit(log: seq<Entry>, o: OpId, facts: seq<Fact>) {
    DistinctFacts(facts) && forall k :: 0 <= k < |facts| ==> !ProducerUsed(log, o, facts[k].request)
  }

  ghost predicate CarrierFits(log: seq<Entry>, o: OpId, kind: RequestKind, carrier: Carrier) {
    && FactsFit(log, o, carrier.facts)
    && (carrier.consumed.Some? ==>
          && RefsResolve(log, carrier.consumed.value.checkpoint, carrier.consumed.value.boundary)
          && (kind == MessageKind ==> carrier.source.Some?)
          && Reconciles(carrier.consumed.value.hooks,
                        HooksOf(log, o, ForRequest(if carrier.source.Some? then carrier.source.value else carrier.producer))))
  }

  ghost predicate EndingFits(log: seq<Entry>, o: OpId, op: Operation, e: Ending) {
    && e.status != Running
    && FreshAside(log, op, e.assistant, e.signal) && FreshAside(log, op, e.assistant, e.settlement)
    && e.signal != e.settlement
    && (e.assistant.Some? ==> ProducedFits(log, o, op, e.assistant.value) && e.usage.None?)
    && (op.active.Some? && op.active.value.ConversationEffect? ==> !e.maintenance)
    && (e.carrier.Some? ==> CarrierFits(log, o, op.admission.kind, e.carrier.value))
    && (op.active.Some? && IsHookEffect(op.active.value) ==> e.carrier.None? && Unnamed(log, o, op.active.value))
  }

  // ---- Stage by stage ------------------------------------------------------------------

  function Remaining(op: Operation, o: OpId, e: Ending): seq<Pending> {
    op.pending + CallsPending(o, e.assistant)
  }

  /** The payload and the hook remnant are recorded; the remaining calls are the unresolved ones. */
  lemma OpeningAccepted(fork: bool, adm: map<OpId, Admission>, session: Session, log: seq<Entry>, o: OpId, op: Operation, e: Ending)
    requires LogAccepted(fork, adm, log) && o in adm && RunningAgrees(session, log, o, op) && EndingFits(log, o, op, e)
    ensures var opening := EndingOpening(log, o, op, e);
            && LogAccepted(fork, adm, opening)
            && Unresolved(Published(opening, o), opening, o) == Remaining(op, o, e)
  {
    if e.assistant.Some? {
      OpeningWithPayload(fork, adm, log, o, op, e);
    } else if op.active.Some? && IsHookEffect(op.active.value) {
      OpeningWithHook(fork, adm, log, o, op, e);
    } else {
      assert EndingOpening(log, o, op, e) == log;
      assert Remaining(op, o, e) == op.pending;
    }
  }

  lemma OpeningWithPayload(fork: bool, adm: map<OpId, Admission>, log: seq<Entry>, o: OpId, op: Operation, e: Ending)
    requires LogAccepted(fork, adm, log) && o in adm && e.assistant.Some? && ProducedFits(log, o, op, e.assistant.value)
    requires op.pending == Unresolved(Published(log, o), log, o) && EffectAgrees(log, o, op, op.active.value)
    ensures var opening := EndingOpening(log, o, op, e);
            && LogAccepted(fork, adm, opening)
            && Unresolved(Published(opening, o), opening, o) == Remaining(op, o, e)
  {
    var a := e.assistant.value;
    assert EndingOpening(log, o, op, e) == log + [AssistantEntry(o, a)];
    AppendAssistant(fork, adm, log, o, a);
    UnresolvedPublish(log, AssistantEntry(o, a), o);
  }

  lemma OpeningWithHook(fork: bool, adm: map<OpId, Admission>, log: seq<Entry>, o: OpId, op: Operation, e: Ending)
    requires LogAccepted(fork, adm, log) && o in adm && e.assistant.None?
    requires op.active.Some? && IsHookEffect(op.active.value) && Unnamed(log, o, op.active.value)
    requires op.pending == Unresolved(Published(log, o), log, o) && EffectAgrees(log, o, op, op.active.value)
    ensures var opening := EndingOpening(log, o, op, e);
            && LogAccepted(fork, adm, opening)
            && Unresolved(Published(opening, o), opening, o) == Remaining(op, o, e)
  {
    var h := HookEntry(o, op.active.value, HookInterrupted, Unknown);
    assert EndingOpening(log, o, op, e) == log + [h];
    AppendHook(fork, adm, log, o, op, HookInterrupted, Unknown);
    UnresolvedHook(log, h, o);
    assert Remaining(op, o, e) == op.pending;
  }

  /** Every remaining call may be interrupted, whatever effect was live. */
  lemma InterruptionFits(session: Session, log: seq<Entry>, o: OpId, op: Operation, e: Ending, p: Pending)
    requires RunningAgrees(session, log, o, op) && EndingFits(log, o, op, e)
    ensures var opening := EndingOpening(log, o, op, e);
            OutcomeFits(opening, o, p.call, InterruptedOutcome(opening, o, op.active, p))
  {
    var opening := EndingOpening(log, o, op, e);
    var out := InterruptedOutcome(opening, o, op.active, p);
    if op.active.Some? && op.active.value.ToolEffect? {
      assert opening == log;
    } else {
      assert !out.accepted;
    }
  }

  /** The views the settlement entry is checked against, once payload and remnant are recorded. */
  ghost predicate OpenedHistory(log: seq<Entry>, opening: seq<Entry>, o: OpId, op: Operation, e: Ending) {
    && SettlementCount(opening, o) == SettlementCount(log, o)
    && OperationUsage(opening, o) == ChargeProduced(OperationUsage(log, o), e.assistant)
    && SessionUsage(opening) == ChargeProduced(SessionUsage(log), e.assistant)
    && (!(op.active.Some? && IsHookEffect(op.active.value)) ==> forall b :: HooksOf(opening, o, b) == HooksOf(log, o, b))
    && (forall r :: ProducerUsed(opening, o, r) ==> ProducerUsed(log, o, r))
    && (forall c, b :: RefsResolve(log, c, b) ==> RefsResolve(opening, c, b))
    && (forall id :: FreshAside(log, op, e.assistant, id) ==> IdentityFree(opening, id))
  }

  lemma OpeningHistory(log: seq<Entry>, o: OpId, op: Operation, e: Ending)
    requires EndingFits(log, o, op, e)
    ensures OpenedHistory(log, EndingOpening(log, o, op, e), o, op, e)
  {
    var opening := EndingOpening(log, o, op, e);
    if e.assistant.Some? || (op.active.Some? && IsHookEffect(op.active.value)) {
      var x := if e.assistant.Some? then AssistantEntry(o, e.assistant.value)
               else HookEntry(o, op.active.value, HookInterrupted, Unknown);
      assert opening == log + [x];
      Snoc(log, x, o);
      forall b ensures HooksOf(opening, o, b) == HooksOf(log, o, b) + if IsHookResult(x, o, b) then [x.body.hook] else [] {
        SnocHooks(log, x, o, b);
      }
      ProducersGrow(log, x, o);
      forall c, b | RefsResolve(log, c, b) ensures RefsResolve(opening, c, b) {
        RefsGrow(log, x, c, b);
      }
      forall id | FreshAside(log, op, e.assistant, id) ensures IdentityFree(opening, id) {
        IdentityGrows(log, x, id);
      }
    } else {
      assert opening == log;
    }
  }

  /** Interrupted results take reservations only, so a free identity stays free. */
  lemma {:induction false} FreeThroughResults(log: seq<Entry>, es: seq<Entry>, o: OpId, id: EntryId)
    requires IdentityFree(log, id) && AllInert(es, o)
    requires forall i :: 0 <= i < |es| ==> es[i].id != id
    ensures IdentityFree(log + es, id)
  {
    if |es| == 0 {
      assert log + es == log;
    } else {
      var n := |es| - 1;
      FreeThroughResults(log, es[..n], o, id);
      IdentityGrows(log + es[..n], es[n], id);
      assert log + es == (log + es[..n]) + [es[n]];
    }
  }

  /** A pending call's reservation is not a free identity. */
  lemma PendingIsReserved(log: seq<Entry>, o: OpId, p: Pending, id: EntryId)
    requires p in Unresolved(Published(log, o), log, o) && IdentityFree(log, id)
    ensures p.result != id
  {
    InUnresolved(Published(log, o), log, o, p);
    var i, k := PublishedBy(log, o, p);
    assert Reserved(log, i, k) == p.result;
  }

  function SignalPart(o: OpId, e: Ending): seq<Entry> {
    if e.status == Interruption then [SignalEntry(e.signal, o, InterruptionSignal)] else []
  }

  /** Everything between the opening and the settlement entry. */
  function ClosingPart(opening: seq<Entry>, o: OpId, op: Operation, e: Ending): seq<Entry> {
    InterruptedEntries(opening, o, op.active, Remaining(op, o, e)) + SignalPart(o, e)
  }

  lemma ClosingIsInert(opening: seq<Entry>, o: OpId, op: Operation, e: Ending)
    ensures AllInert(ClosingPart(opening, o, op, e), o)
  {
  }

  lemma ClosingAccepted(fork: bool, adm: map<OpId, Admission>, opening: seq<Entry>, o: OpId, op: Operation, e: Ending,
                        closed: seq<Entry>)
    requires LogAccepted(fork, adm, opening) && o in adm
    requires Unresolved(Published(opening, o), opening, o) == Remaining(op, o, e)
    requires forall p :: p in Remaining(op, o, e) ==> OutcomeFits(opening, o, p.call, InterruptedOutcome(opening, o, op.active, p))
    requires IdentityFree(opening, e.signal)
    requires closed == opening + ClosingPart(opening, o, op, e)
    ensures LogAccepted(fork, adm, closed) && Unresolved(Published(closed, o), closed, o) == []
  {
    var calls := Remaining(op, o, e);
    var es := InterruptedEntries(opening, o, op.active, calls);
    var answered := opening + es;
    InterruptAll(fork, adm, opening, opening, o, op.active, calls, es, answered);
    InterruptionKeepsFree(opening, o, op.active, calls, e.signal);
    assert closed == answered + SignalPart(o, e);
    SignalAccepted(fork, adm, answered, o, e, closed);
  }

  lemma SignalAccepted(fork: bool, adm: map<OpId, Admission>, answered: seq<Entry>, o: OpId, e: Ending, closed: seq<Entry>)
    requires LogAccepted(fork, adm, answered) && Unresolved(Published(answered, o), answered, o) == [] && o in adm
    requires IdentityFree(answered, e.signal) && closed == answered + SignalPart(o, e)
    ensures LogAccepted(fork, adm, closed) && Unresolved(Published(closed, o), closed, o) == []
  {
    if e.status == Interruption {
      AppendSignal(fork, adm, answered, o, e.signal, InterruptionSignal);
      UnresolvedNeutral(answered, SignalEntry(e.signal, o, InterruptionSignal), o);
    } else {
      assert closed == answered;
    }
  }

  lemma InterruptionKeepsFree(opening: seq<Entry>, o: OpId, active: Option<Effect>, calls: seq<Pending>, id: EntryId)
    requires IdentityFree(opening, id) && calls == Unresolved(Published(opening, o), opening, o)
    ensures IdentityFree(opening + InterruptedEntries(opening, o, active, calls), id)
  {
    var es := InterruptedEntries(opening, o, active, calls);
    forall i | 0 <= i < |es| ensures es[i].id != id {
      assert calls[i] in calls;
      PendingIsReserved(opening, o, calls[i], id);
    }
    FreeThroughResults(opening, es, o, id);
  }

  lemma ClosingKeepsFree(opening: seq<Entry>, o: OpId, op: Operation, e: Ending, id: EntryId)
    requires IdentityFree(opening, id) && id != e.signal
    requires Unresolved(Published(opening, o), opening, o) == Remaining(op, o, e)
    ensures IdentityFree(opening + ClosingPart(opening, o, op, e), id)
  {
    var es := ClosingPart(opening, o, op, e);
    var calls := Remaining(op, o, e);
    forall i | 0 <= i < |es| ensures es[i].id != id {
      if i < |calls| {
        assert calls[i] in calls;
        PendingIsReserved(opening, o, calls[i], id);
      }
    }
    ClosingIsInert(opening, o, op, e);
    FreeThroughResults(opening, es, o, id);
  }

  /** The settlement's evidence and facts fit the log as it stood before the transaction. */
  lemma SettlementFits(session: Session, log: seq<Entry>, o: OpId, op: Operation, e: Ending)
    requires RunningAgrees(session, log, o, op) && EndingFits(log, o, op, e)
    ensures FactsFit(log, o, FactsOf(SettlementEntry(o, op, e).body))
    ensures EvidenceFits(log, SettlementEntry(o, op, e), o)
    ensures SettlementEvidence(op, e).Some? && op.admission.kind == MessageKind ==>
              e.maintenance ==> SettlementConsumed(e).Some?
    ensures op.active.Some? && IsHookEffect(op.active.value) ==> SettlementEvidence(op, e).None?
  {
    if SettlementEvidence(op, e).Some? && op.active.Some? && op.active.value.ConversationEffect? {
      assert SettlementRequest(op, e) == Some(op.active.value.request);
    }
  }

  lemma SettledAccepted(fork: bool, adm: map<OpId, Admission>, closed: seq<Entry>, o: OpId, op: Operation, e: Ending)
    requires LogAccepted(fork, adm, closed) && o in adm && adm[o] == op.admission
    requires IdentityFree(closed, SettlementIdentity(op, e))
    requires FactsFit(closed, o, FactsOf(SettlementEntry(o, op, e).body)) && EvidenceFits(closed, SettlementEntry(o, op, e), o)
    requires SettlementEvidence(op, e).Some? && op.admission.kind == MessageKind ==>
               e.maintenance ==> SettlementConsumed(e).Some?
    ensures LogAccepted(fork, adm, closed + [SettlementEntry(o, op, e)])
  {
    Append(fork, adm, closed, SettlementEntry(o, op, e));
  }

  /** The settlement entry's usage completes the totals the registers are charged. */
  lemma SettlementCharges(t: Totals, o: OpId, op: Operation, e: Ending)
    requires e.assistant.Some? ==> e.usage.None?
    ensures ChargeEntry(ChargeProduced(t, e.assistant), SettlementEntry(o, op, e).body) == EndingUsage(t, e)
  {
  }

  /** With no unresolved call left, every published call has exactly one result. */
  lemma EveryCallAnswered(fork: bool, adm: map<OpId, Admission>, log: seq<Entry>, o: OpId, p: Pending)
    requires LogAccepted(fork, adm, log) && Unresolved(Published(log, o), log, o) == [] && p in Published(log, o)
    ensures ResultCount(log, o, p.call) == 1
  {
    InUnresolved(Published(log, o), log, o, p);
    ResultAtMostOnce(fork, adm, log, o, p.call);
  }

  lemma FinalRegister(fork: bool, adm: map<OpId, Admission>, closed: seq<Entry>, o: OpId, op: Operation, e: Ending)
    requires LogAccepted(fork, adm, closed) && Unresolved(Published(closed, o), closed, o) == []
    requires SettlementCount(closed, o) == 0
    ensures TerminalAgrees(closed + [SettlementEntry(o, op, e)], o, EndedOperation(op, e))
  {
    var x := SettlementEntry(o, op, e);
    var final := closed + [x];
    Snoc(closed, x, o);
    assert Published(final, o) == Published(closed, o);
    forall p | p in Published(final, o) ensures ResultCount(final, o, p.call) == 1 {
      EveryCallAnswered(fork, adm, closed, o, p);
      SnocCount(closed, x, o, p.call);
    }
    assert final[|closed|] == x && IsSettlement(x, o);
  }

  // ---- The whole settlement ----------------------------------------------------------------

  function EndingEntries(log: seq<Entry>, o: OpId, op: Operation, e: Ending): seq<Entry> {
    AssistantEntries(o, e.assistant) + HookRemnant(o, op.active)
    + ClosingPart(EndingOpening(log, o, op, e), o, op, e) + [SettlementEntry(o, op, e)]
  }

  lemma EndingLogSplits(log: seq<Entry>, o: OpId, op: Operation, e: Ending)
    ensures EndingLog(log, o, op, e) == log + EndingEntries(log, o, op, e)
    ensures EndingLog(log, o, op, e) ==
            (EndingOpening(log, o, op, e) + ClosingPart(EndingOpening(log, o, op, e), o, op, e)) + [SettlementEntry(o, op, e)]
    ensures AllOwned(EndingEntries(log, o, op, e), o)
  {
  }

  /** Everything the settlement entry and the final register are checked against. */
  ghost predicate Closed(fork: bool, adm: map<OpId, Admission>, log: seq<Entry>, closed: seq<Entry>, o: OpId, op: Operation,
                         e: Ending) {
    && LogAccepted(fork, adm, closed)
    && Unresolved(Published(closed, o), closed, o) == []
    && SettlementCount(closed, o) == 0
    && OperationUsage(closed, o) == ChargeProduced(OperationUsage(log, o), e.assistant)
    && SessionUsage(closed) == ChargeProduced(SessionUsage(log), e.assistant)
    && FactsFit(closed, o, FactsOf(SettlementEntry(o, op, e).body))
    && EvidenceFits(closed, SettlementEntry(o, op, e), o)
    && IdentityFree(closed, SettlementIdentity(op, e))
  }

  lemma ReachClosed(fork: bool, adm: map<OpId, Admission>, session: Session, log: seq<Entry>, o: OpId, op: Operation, e: Ending,
                    opening: seq<Entry>, closed: seq<Entry>)
    requires LogAccepted(fork, adm, log) && o in adm && RunningAgrees(session, log, o, op) && EndingFits(log, o, op, e)
    requires opening == EndingOpening(log, o, op, e) && closed == opening + ClosingPart(opening, o, op, e)
    ensures Closed(fork, adm, log, closed, o, op, e)
  {
    ClosedLog(fork, adm, session, log, o, op, e, opening, closed);
    ClosedHistory(session, log, o, op, e, opening, closed);
  }

  lemma ClosedLog(fork: bool, adm: map<OpId, Admission>, session: Session, log: seq<Entry>, o: OpId, op: Operation, e: Ending,
                  opening: seq<Entry>, closed: seq<Entry>)
    requires LogAccepted(fork, adm, log) && o in adm && RunningAgrees(session, log, o, op) && EndingFits(log, o, op, e)
    requires opening == EndingOpening(log, o, op, e) && closed == opening + ClosingPart(opening, o, op, e)
    ensures LogAccepted(fork, adm, closed) && Unresolved(Published(closed, o), closed, o) == []
    ensures IdentityFree(closed, SettlementIdentity(op, e))
  {
    OpeningAccepted(fork, adm, session, log, o, op, e);
    forall p | p in Remaining(op, o, e)
      ensures OutcomeFits(opening, o, p.call, InterruptedOutcome(opening, o, op.active, p))
    {
      InterruptionFits(session, log, o, op, e, p);
    }
    OpeningKeepsFree(log, o, op, e, e.signal);
    ClosingAccepted(fork, adm, opening, o, op, e, closed);
    SettlementIdentityFree(session, log, o, op, e);
    ClosingKeepsFree(opening, o, op, e, SettlementIdentity(op, e));
  }

  lemma OpeningKeepsFree(log: seq<Entry>, o: OpId, op: Operation, e: Ending, id: EntryId)
    requires EndingFits(log, o, op, e) && FreshAside(log, op, e.assistant, id)
    ensures IdentityFree(EndingOpening(log, o, op, e), id)
  {
    OpeningHistory(log, o, op, e);
  }

  lemma ClosedHistory(session: Session, log: seq<Entry>, o: OpId, op: Operation, e: Ending, opening: seq<Entry>, closed: seq<Entry>)
    requires RunningAgrees(session, log, o, op) && EndingFits(log, o, op, e)
    requires opening == EndingOpening(log, o, op, e) && closed == opening + ClosingPart(opening, o, op, e)
    ensures SettlementCount(closed, o) == 0
    ensures OperationUsage(closed, o) == ChargeProduced(OperationUsage(log, o), e.assistant)
    ensures SessionUsage(closed) == ChargeProduced(SessionUsage(log), e.assistant)
    ensures FactsFit(closed, o, FactsOf(SettlementEntry(o, op, e).body))
    ensures EvidenceFits(closed, SettlementEntry(o, op, e), o)
  {
    OpeningHistory(log, o, op, e);
    ClosingIsInert(opening, o, op, e);
    AllInertHistory(opening, ClosingPart(opening, o, op, e), o);
    SettlementFits(session, log, o, op, e);
  }

  lemma SettlementIdentityFree(session: Session, log: seq<Entry>, o: OpId, op: Operation, e: Ending)
    requires RunningAgrees(session, log, o, op) && EndingFits(log, o, op, e)
    ensures SettlementIdentity(op, e) != e.signal
    ensures IdentityFree(EndingOpening(log, o, op, e), SettlementIdentity(op, e))
  {
    OpeningHistory(log, o, op, e);
    if e.assistant.None? && IsModelEffect(op.active) {
      assert EndingOpening(log, o, op, e) == log;
    }
  }

  lemma SettleAccepted(g: Graph, o: OpId, e: Ending)
    requires Accepted(g) && IsRunning(g, o) && EndingFits(g.log, o, g.ops[o], e)
    ensures Accepted(Settle(g, o, e))
  {
    hide LogFits, LogConsistent, OperationsAgree, Reconciles, EffectAgrees;
    var op, adm := g.ops[o], Admissions(g.ops);
    OnlyRunning(g, o);
    var opening := EndingOpening(g.log, o, op, e);
    var closed := opening + ClosingPart(opening, o, op, e);
    ReachClosed(g.session.fork, adm, g.session, g.log, o, op, e, opening, closed);
    SettlementFits(g.session, g.log, o, op, e);
    EndingLogSplits(g.log, o, op, e);
    SettledAccepted(g.session.fork, adm, closed, o, op, e);
    FinalRegister(g.session.fork, adm, closed, o, op, e);
    var x := SettlementEntry(o, op, e);
    Snoc(closed, x, o);
    SettlementCharges(op.usage, o, op, e);
    SettlementCharges(g.session.usage, o, op, e);
    var g' := Settle(g, o, e);
    CheckpointNamed(g);
    NamesCheckpointGrows(g.session, g'.session, g.log, EndingEntries(g.log, o, op, e));
    TransactionAccepted(g, o, EndingEntries(g.log, o, op, e), g');
  }
}
