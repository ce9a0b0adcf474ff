/** How each kind of committed entry keeps the log accepted, and what it does to
    the views the registers are compared with. */
module Appends {
  import opened Records
  import opened Validator
  import opened Transactions
  import opened LogLemmas
  import opened LogFacts
  import opened Growth

  /** Identity discipline of a new entry: its own identity is fresh, except that a
      result takes its call's reservation; new calls reserve fresh identities. */
  ghost predicate Sound(log: seq<Entry>, e: Entry) {
    match e.body
    case Assistant(_, _, _, _, calls, _, _) =>
      IdentityFree(log, e.id) && e.owner.Some? && FreshCalls(log, e.owner.value, e.id, calls)
    case ToolResult(_, _, _, _, _, _, _) => ResultAnswers(log, e)
    case _ => IdentityFree(log, e.id)
  }

  lemma Append(fork: bool, adm: map<OpId, Admission>, log: seq<Entry>, e: Entry)
    requires LogAccepted(fork, adm, log) && Fits(fork, adm, log, e) && Sound(log, e)
    ensures LogAccepted(fork, adm, log + [e])
  {
    LogFitsAppend(fork, adm, log, e);
    if e.body.Assistant? {
      ConsistentAppendAssistant(log, e, e.owner.value);
    } else if e.body.ToolResult? {
      ConsistentAppendResult(log, e);
    } else {
      ConsistentAppendPlain(log, e);
    }
  }

  /** Inputs, signals and checkpoints publish, answer and execute nothing. */
  predicate Neutral(b: Body) {
    b.Input? || b.Signal? || b.Checkpoint?
  }

  lemma SnocNeutral(log: seq<Entry>, e: Entry, o: OpId)
    requires Neutral(e.body)
    ensures Published(log + [e], o) == Published(log, o)
    ensures SettlementCount(log + [e], o) == SettlementCount(log, o)
    ensures forall c :: ResultCount(log + [e], o, c) == ResultCount(log, o, c)
    ensures forall b :: HooksOf(log + [e], o, b) == HooksOf(log, o, b)
    ensures forall b :: HookEntriesOf(log + [e], o, b) == HookEntriesOf(log, o, b)
    ensures forall c :: SucceededHooks(log + [e], o, c) == SucceededHooks(log, o, c)
  {
    Prefix(log, e);
  }

  lemma UnresolvedNeutral(log: seq<Entry>, e: Entry, o: OpId)
    requires Neutral(e.body)
    ensures Unresolved(Published(log + [e], o), log + [e], o) == Unresolved(Published(log, o), log, o)
  {
    SnocNeutral(log, e, o);
    UnresolvedSame(Published(log, o), log, log + [e], o);
  }

  /** A running register with no effect survives a neutral entry. */
  lemma QuietGrowsNeutral(session: Session, log: seq<Entry>, e: Entry, o: OpId, op: Operation)
    requires RunningAgrees(session, log, o, op) && op.active.None? && Neutral(e.body)
    ensures RunningAgrees(session, log + [e], o, op)
  {
    SnocNeutral(log, e, o);
    UnresolvedNeutral(log, e, o);
    if op.request.Some? {
      RefsGrow(log, e, op.request.value.checkpoint, op.request.value.boundary);
    }
  }

  ghost predicate PublishesCall(log: seq<Entry>, o: OpId, c: CallId) {
    exists i, k :: IsReservation(log, i, k) && Owned(log[i], o) && log[i].body.calls[k].id == c
  }

  /** An Operation's results answer only calls it published. */
  lemma OnlyPublishedAnswered(log: seq<Entry>, o: OpId, c: CallId)
    requires LogConsistent(log)
    ensures ResultCount(log, o, c) > 0 ==> PublishesCall(log, o, c)
  {
    CountWitness(log, o, c);
    if j :| 0 <= j < |log| && AnswersCall(log[j], o, c) {
      var i, k :| IsReservation(log, i, k) && Reserved(log, i, k) == log[j].id && Settles(log[j], log[i], k);
    }
  }

  /** A new assistant entry's calls join the unresolved ones, in order. */
  lemma UnresolvedPublish(log: seq<Entry>, e: Entry, o: OpId)
    requires LogConsistent(log) && e.body.Assistant? && Owned(e, o) && FreshCalls(log, o, e.id, e.body.calls)
    ensures Unresolved(Published(log + [e], o), log + [e], o) == Unresolved(Published(log, o), log, o) + CallsOf(e, o)
  {
    var log' := log + [e];
    Snoc(log, e, o);
    forall c: CallId ensures ResultCount(log', o, c) == ResultCount(log, o, c) {
      SnocCount(log, e, o, c);
    }
    UnresolvedConcat(Published(log, o), CallsOf(e, o), log', o);
    UnresolvedSame(Published(log, o), log, log', o);
    forall p | p in CallsOf(e, o) ensures ResultCount(log', o, p.call) == 0 {
      OnlyPublishedAnswered(log, o, p.call);
    }
    UnresolvedAll(CallsOf(e, o), log', o);
  }

  /** A settled call leaves the unresolved ones, and nothing else moves. */
  lemma UnresolvedSettle(log: seq<Entry>, e: Entry, o: OpId, i: int)
    requires LogConsistent(log) && e.body.ToolResult? && Owned(e, o)
    requires 0 <= i < |Unresolved(Published(log, o), log, o)|
    requires e.body.answers == Unresolved(Published(log, o), log, o)[i].call
    ensures Unresolved(Published(log + [e], o), log + [e], o) == WithoutIndex(Unresolved(Published(log, o), log, o), i)
  {
    var log' := log + [e];
    Snoc(log, e, o);
    var calls := Published(log, o);
    PublishedDistinct(log, o);
    assert Published(log', o) == calls;
    forall p | p in calls
      ensures ResultCount(log', o, p.call) == 0 <==> ResultCount(log, o, p.call) == 0 && p.call != Unresolved(calls, log, o)[i].call
    {
      SnocCount(log, e, o, p.call);
    }
    UnresolvedRemoved(calls, log, log', o, i);
  }

  /** A hook result publishes and answers nothing. */
  lemma UnresolvedHook(log: seq<Entry>, e: Entry, o: OpId)
    requires e.body.HookResult?
    ensures Published(log + [e], o) == Published(log, o)
    ensures Unresolved(Published(log + [e], o), log + [e], o) == Unresolved(Published(log, o), log, o)
  {
    Snoc(log, e, o);
    forall c: CallId ensures ResultCount(log + [e], o, c) == ResultCount(log, o, c) {
      SnocCount(log, e, o, c);
    }
    assert Published(log + [e], o) == Published(log, o);
    UnresolvedSame(Published(log, o), log, log + [e], o);
  }

  /** The reservation of an unresolved call is the identity its result may take. */
  lemma ResultOfUnresolved(log: seq<Entry>, o: OpId, p: Pending, out: Outcome)
    requires LogConsistent(log) && p in Unresolved(Published(log, o), log, o)
    ensures p in Published(log, o) && !Committed(log, p.result)
    ensures ResultAnswers(log, ToolResultEntry(o, p, out))
  {
    InUnresolved(Published(log, o), log, o, p);
    ResultCommitted(log, o, p);
    var i, k := PublishedBy(log, o, p);
    assert Settles(ToolResultEntry(o, p, out), log[i], k);
  }

  /** The first unresolved call: every earlier published call is answered. */
  lemma {:induction false} FirstUnresolved(calls: seq<Pending>, log: seq<Entry>, o: OpId) returns (n: nat)
    requires |Unresolved(calls, log, o)| > 0
    ensures n < |calls| && calls[n] == Unresolved(calls, log, o)[0] && ResultCount(log, o, calls[n].call) == 0
    ensures forall q :: 0 <= q < n ==> ResultCount(log, o, calls[q].call) != 0
  {
    if ResultCount(log, o, calls[0].call) == 0 {
      n := 0;
    } else {
      var m := FirstUnresolved(calls[1..], log, o);
      n := m + 1;
      assert forall q :: 0 < q < n ==> calls[q] == calls[1..][q - 1];
    }
  }

  lemma RunsFirst(log: seq<Entry>, o: OpId, c: CallId)
    requires LogConsistent(log)
    requires |Unresolved(Published(log, o), log, o)| > 0 && Unresolved(Published(log, o), log, o)[0].call == c
    ensures exists p :: RunsAsFirstPending(log, o, c, p)
  {
    var calls := Published(log, o);
    var n := FirstUnresolved(calls, log, o);
    forall q | 0 <= q <= n ensures ResultCount(log, o, calls[q].call) == 0 <==> !Committed(log, calls[q].result) {
      ResultCommitted(log, o, calls[q]);
    }
    assert RunsAsFirstPending(log, o, c, n);
  }

  // ---- One entry of the running Operation ---------------------------------------

  lemma AppendSignal(fork: bool, adm: map<OpId, Admission>, log: seq<Entry>, o: OpId, id: EntryId, kind: SignalKind)
    requires LogAccepted(fork, adm, log) && o in adm && IdentityFree(log, id)
    ensures LogAccepted(fork, adm, log + [SignalEntry(id, o, kind)])
  {
    Append(fork, adm, log, SignalEntry(id, o, kind));
  }

  lemma AppendCompletion(fork: bool, adm: map<OpId, Admission>, log: seq<Entry>, id: EntryId, text: Text)
    requires LogAccepted(fork, adm, log) && IdentityFree(log, id)
    ensures LogAccepted(fork, adm, log + [Entry(id, None, Signal(CompletionSignal, None, text))])
  {
    Append(fork, adm, log, Entry(id, None, Signal(CompletionSignal, None, text)));
  }

  lemma AppendAssistant(fork: bool, adm: map<OpId, Admission>, log: seq<Entry>, o: OpId, a: Produced)
    requires LogAccepted(fork, adm, log) && o in adm
    requires IdentityFree(log, a.id) && FreshCalls(log, o, a.id, a.calls)
    requires RequestOpen(log, o, a.request) && ActiveEvidence(log, o, a.request, a.evidence)
    ensures LogAccepted(fork, adm, log + [AssistantEntry(o, a)])
  {
    Append(fork, adm, log, AssistantEntry(o, a));
  }

  /** What the outcome of a settled call owes to the hooks that ran for it. */
  ghost predicate OutcomeFits(log: seq<Entry>, o: OpId, c: CallId, out: Outcome) {
    && (out.accepted ==> Reconciles(out.hooks, SucceededHooks(log, o, c)))
    && forall i :: 0 <= i < |log| && IsHookResult(log[i], o, ForCall(c)) ==>
         && (log[i].body.outcome == HookInterrupted ==> out.result == ResultInterrupted)
         && (log[i].body.outcome == HookFailed ==> out.result == ResultInterrupted || out.result == ResultError)
  }

  lemma AppendResult(fork: bool, adm: map<OpId, Admission>, log: seq<Entry>, o: OpId, p: Pending, out: Outcome)
    requires LogAccepted(fork, adm, log) && o in adm
    requires p in Unresolved(Published(log, o), log, o) && OutcomeFits(log, o, p.call, out)
    ensures LogAccepted(fork, adm, log + [ToolResultEntry(o, p, out)])
  {
    ResultOfUnresolved(log, o, p, out);
    Append(fork, adm, log, ToolResultEntry(o, p, out));
  }

  /** Nothing recorded already names the hook an active request hook is about to run. */
  ghost predicate Unnamed(log: seq<Entry>, o: OpId, effect: Effect) {
    effect.RequestHookEffect? ==> forall i :: 0 <= i < |log| ==> !Names(log[i], o, effect.request, effect.hook)
  }

  lemma AppendHook(fork: bool, adm: map<OpId, Admission>, log: seq<Entry>, o: OpId, op: Operation, outcome: HookStatus,
                   knowledge: Knowledge)
    requires LogAccepted(fork, adm, log) && o in adm
    requires op.pending == Unresolved(Published(log, o), log, o)
    requires op.active.Some? && IsHookEffect(op.active.value) && EffectAgrees(log, o, op, op.active.value)
    requires Unnamed(log, o, op.active.value)
    ensures LogAccepted(fork, adm, log + [HookEntry(o, op.active.value, outcome, knowledge)])
  {
    var e := HookEntry(o, op.active.value, outcome, knowledge);
    if op.active.value.CallHookEffect? {
      RunsFirst(log, o, op.active.value.call);
    }
    assert HookResultFits(log, e, o);
    Append(fork, adm, log, e);
  }
}
