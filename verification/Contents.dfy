/** What each transaction writes (harness/effect.go, compact.go, harness.go, background.go),
    read off the stored records: the entries it appends, field by field, the register it
    leaves, and all that it does not touch. The lemmas hold the specification functions to
    these readings, and the store's methods promise them. */
module Contents {
  import opened Records
  import opened Validator
  import opened Transactions
  import opened Settling
  import opened Snapshots
  import opened Notices

  /** Nothing but this Operation's register, the Session register and new entries changed. */
  ghost predicate Beside(g: Graph, g': Graph, o: OpId) {
    && g.log <= g'.log && g'.ops.Keys == g.ops.Keys + {o} && (forall x :: x in g.ops && x != o ==> g'.ops[x] == g.ops[x])
    && (o in g.ops ==> g'.ops[o].admission == g.ops[o].admission)
    && g'.session.fork == g.session.fork
  }

  /** The Operation stays running, and what concerns its end and its maintenance stands. */
  ghost predicate RunsOn(g: Graph, g': Graph, o: OpId) {
    && Beside(g, g', o) && o in g.ops
    && g'.ops[o].status == Running && g'.ops[o].terminal == g.ops[o].terminal
    && g'.session.open == g.session.open && g'.session.current == g.session.current
  }

  ghost predicate SameCharges(g: Graph, g': Graph, o: OpId) {
    && o in g.ops && o in g'.ops && g'.ops[o].usage == g.ops[o].usage && g'.session.usage == g.session.usage
    && g'.ops[o].unreportedMaintenance == g.ops[o].unreportedMaintenance
  }

  predicate Quiet(g: Graph, o: OpId) {
    o in g.ops && g.ops[o].status == Running && g.ops[o].active.None?
  }

  predicate ConversationLive(g: Graph, o: OpId) {
    o in g.ops && g.ops[o].status == Running && g.ops[o].active.Some? && g.ops[o].active.value.ConversationEffect?
  }

  predicate MaintenanceLive(g: Graph, o: OpId) {
    o in g.ops && g.ops[o].status == Running && g.ops[o].active.Some? && g.ops[o].active.value.MaintenanceEffect?
  }

  predicate HookLive(op: Operation) {
    op.active.Some? && (op.active.value.CallHookEffect? || op.active.value.RequestHookEffect?)
  }

  predicate FirstCall(g: Graph, o: OpId, c: CallId) {
    Quiet(g, o) && |g.ops[o].pending| > 0 && g.ops[o].pending[0].call == c
  }

  // ---- Admission ----------------------------------------------------------------------

  predicate Admissible(g: Graph, o: OpId) {
    o !in g.ops && g.session.open && g.session.current.None?
  }

  /** The Session runs a new Operation that published nothing and is charged nothing; a
      message's input is the one new entry. */
  ghost predicate Admitted(g: Graph, g': Graph, o: OpId, kind: RequestKind, entry: EntryId, origin: Origin, text: Text) {
    && Beside(g, g', o) && g'.session.open && g'.session.current == Some(o)
    && g'.session.checkpoint == g.session.checkpoint && g'.session.usage == g.session.usage
    && var op := g'.ops[o];
       && op.status == Running && op.active.None? && op.request.None? && op.pending == [] && op.usage == map[] && op.terminal.None?
       && !op.unreportedMaintenance && op.admission.kind == kind
       && (kind == CompactKind ==> op.admission.admitted.None? && g'.log == g.log)
       && (kind == MessageKind ==>
             && op.admission.admitted == Some(entry) && |g'.log| == |g.log| + 1
             && var e := g'.log[|g.log|];
                e.id == entry && e.owner == Some(o) && e.body.Input? && e.body.origin == origin && e.body.text == text)
  }

  lemma AdmissionWrites(g: Graph, o: OpId, entry: EntryId, origin: Origin, text: Text)
    ensures AdmitMessage(g, o, entry, origin, text).Some? <==> Admissible(g, o)
    ensures Admissible(g, o) ==> Admitted(g, AdmitMessage(g, o, entry, origin, text).value, o, MessageKind, entry, origin, text)
    ensures AdmitCompact(g, o).Some? <==> Admissible(g, o)
    ensures Admissible(g, o) ==> Admitted(g, AdmitCompact(g, o).value, o, CompactKind, entry, origin, text)
  {
  }

  // ---- Intents ------------------------------------------------------------------------------

  /** An intent writes its effect on the register of a quiet Operation, and no entry. */
  ghost predicate Intended(g: Graph, g': Graph, o: OpId, effect: Effect) {
    && RunsOn(g, g', o) && SameCharges(g, g', o) && g'.log == g.log && g'.session == g.session
    && g'.ops[o].active == Some(effect) && g'.ops[o].pending == g.ops[o].pending
  }

  /** A conversation intent publishes its request, or moves the published one to the
      projection it consumes, keeping its identity and hook results. */
  ghost predicate ConversationIntended(g: Graph, g': Graph, o: OpId, effect: Effect)
    requires effect.ConversationEffect?
  {
    && Intended(g, g', o, effect) && g'.ops[o].request.Some?
    && var request := g'.ops[o].request.value;
       && request.checkpoint == effect.evidence.checkpoint && request.boundary == effect.evidence.boundary
       && (g.ops[o].request.None? ==> request.id == effect.request && request.hookResults == [])
       && (g.ops[o].request.Some? ==>
             request.id == g.ops[o].request.value.id && request.hookResults == g.ops[o].request.value.hookResults)
  }

  /** A maintenance intent publishes the suspended request only where none is published. */
  ghost predicate MaintenanceIntended(g: Graph, g': Graph, o: OpId, effect: Effect, suspended: Option<RunningRequest>) {
    && Intended(g, g', o, effect)
    && (g.ops[o].request.Some? ==> g'.ops[o].request == g.ops[o].request)
    && (g.ops[o].request.None? ==> g'.ops[o].request == suspended)
  }

  /** A request-hook intent publishes its request only where none is published. */
  ghost predicate RequestHookIntended(g: Graph, g': Graph, o: OpId, effect: Effect)
    requires effect.RequestHookEffect?
  {
    && Intended(g, g', o, effect)
    && (g.ops[o].request.Some? ==> g'.ops[o].request == g.ops[o].request)
    && (g.ops[o].request.None? ==>
          && g'.ops[o].request.Some? && g'.ops[o].request.value.id == effect.request
          && g'.ops[o].request.value.checkpoint == effect.evidence.checkpoint
          && g'.ops[o].request.value.boundary == effect.evidence.boundary && g'.ops[o].request.value.hookResults == [])
  }

  ghost predicate CallIntended(g: Graph, g': Graph, o: OpId, effect: Effect) {
    Intended(g, g', o, effect) && g'.ops[o].request == g.ops[o].request
  }

  lemma ModelIntentWrites(g: Graph, o: OpId, result: EntryId, r: RequestId, m: ModelRef, ev: Evidence, suspended: Option<RunningRequest>)
    ensures BeginConversation(g, o, result, r, m, ev).Some? <==> Quiet(g, o)
    ensures Quiet(g, o) ==>
              ConversationIntended(g, BeginConversation(g, o, result, r, m, ev).value, o, ConversationEffect(result, r, m, ev))
    ensures BeginMaintenance(g, o, result, r, m, suspended).Some? <==> Quiet(g, o)
    ensures Quiet(g, o) ==>
              MaintenanceIntended(g, BeginMaintenance(g, o, result, r, m, suspended).value, o, MaintenanceEffect(result, r, m), suspended)
  {
  }

  lemma RequestHookIntentWrites(g: Graph, o: OpId, result: EntryId, r: RequestId, hook: HookId, ev: Evidence)
    ensures BeginRequestHook(g, o, result, r, hook, ev).Some? <==> Quiet(g, o)
    ensures Quiet(g, o) ==>
              RequestHookIntended(g, BeginRequestHook(g, o, result, r, hook, ev).value, o, RequestHookEffect(result, r, hook, ev))
  {
  }

  /** Call intents address the first pending call: a tool under the call's own reservation,
      a hook under a fresh identity. */
  lemma CallIntentWrites(g: Graph, o: OpId, c: CallId, result: EntryId, hook: HookId, hooks: seq<HookId>)
    ensures BeginCallHook(g, o, result, c, hook).Some? <==> FirstCall(g, o, c)
    ensures FirstCall(g, o, c) ==> CallIntended(g, BeginCallHook(g, o, result, c, hook).value, o, CallHookEffect(result, c, hook))
    ensures BeginTool(g, o, c, hooks).Some? <==> FirstCall(g, o, c)
    ensures FirstCall(g, o, c) ==>
              CallIntended(g, BeginTool(g, o, c, hooks).value, o, ToolEffect(g.ops[o].pending[0].result, c, hooks))
  {
  }

  // ---- Results ------------------------------------------------------------------------------

  predicate IsPayload(e: Entry, o: OpId, a: Produced) {
    && e.id == a.id && e.owner == Some(o) && e.body.Assistant? && e.body.status == a.status && e.body.text == a.text
    && e.body.source == a.source && e.body.usage == a.usage && e.body.calls == a.calls
    && e.body.request == a.request && e.body.evidence == a.evidence
  }

  /** The signal after a broken-off answer the Operation goes on from. */
  predicate IsContinuation(e: Entry, o: OpId, id: EntryId) {
    && e.id == id && e.owner == Some(o) && e.body.Signal? && e.body.kind == ContinuationSignal && e.body.related == Some(o)
    && e.body.text == "The previous model response failed after partial output. Continue from the retained response."
  }

  /** A running model result appends its payload and its continuation signal; the payload's
      calls join the pending ones in order, each under its reservation; and the published
      request ends exactly when nothing is pending. */
  ghost predicate ModelResultWritten(g: Graph, g': Graph, o: OpId, a: Option<Produced>, signal: Option<EntryId>) {
    && RunsOn(g, g', o) && g'.session.checkpoint == g.session.checkpoint
    && |g'.log| == |g.log| + (if a.Some? then 1 else 0) + (if signal.Some? then 1 else 0)
    && (a.Some? ==> IsPayload(g'.log[|g.log|], o, a.value))
    && (signal.Some? ==> IsContinuation(g'.log[|g'.log| - 1], o, signal.value))
    && g'.ops[o].active.None? && g'.ops[o].unreportedMaintenance == g.ops[o].unreportedMaintenance
    && g'.ops[o].pending == CallsLeft(g.ops[o], a)
    && g'.ops[o].request == if CallsLeft(g.ops[o], a) == [] then None else g.ops[o].request
  }

  lemma ModelResultWrites(g: Graph, o: OpId, a: Option<Produced>, signal: Option<EntryId>)
    ensures CommitModelResult(g, o, a, signal).Some? <==> ConversationLive(g, o)
    ensures ConversationLive(g, o) ==> ModelResultWritten(g, CommitModelResult(g, o, a, signal).value, o, a, signal)
  {
    hide ChargeProduced;
    if ConversationLive(g, o) {
      assert g.ops[o].pending + CallsPending(o, a) == CallsLeft(g.ops[o], a);
    }
  }

  /** A completed maintenance effect appends nothing, and raises the marker until its fact is recorded. */
  ghost predicate MaintenanceResultWritten(g: Graph, g': Graph, o: OpId) {
    && RunsOn(g, g', o) && g'.log == g.log && g'.session == g.session
    && g'.ops[o].unreportedMaintenance && g'.ops[o].active.None?
    && g'.ops[o].request == g.ops[o].request && g'.ops[o].pending == g.ops[o].pending && g'.ops[o].usage == g.ops[o].usage
  }

  lemma MaintenanceResultWrites(g: Graph, o: OpId)
    ensures CommitMaintenanceResult(g, o).Some? <==> MaintenanceLive(g, o)
    ensures MaintenanceLive(g, o) ==> MaintenanceResultWritten(g, CommitMaintenanceResult(g, o).value, o)
  {
  }

  /** The result entry of one pending call: under its reservation, naming its publisher. */
  predicate IsResultOf(e: Entry, o: OpId, p: Pending, result: ResultStatus, text: Text, knowledge: Knowledge, accepted: bool,
                       hooks: seq<HookId>) {
    && e.id == p.result && e.owner == Some(o) && e.body.ToolResult? && e.body.answers == p.call && e.body.assistant == p.assistant
    && e.body.result == result && e.body.text == text && e.body.knowledge == knowledge && e.body.accepted == accepted
    && e.body.hooks == hooks
  }

  /** The first pending occurrence of a call. */
  predicate PendsAt(pending: seq<Pending>, c: CallId, i: nat) {
    i < |pending| && pending[i].call == c && forall j :: 0 <= j < i ==> pending[j].call != c
  }

  /** One result entry, after which exactly this call is no longer pending; the published
      request ends exactly when nothing is. */
  ghost predicate ResultWritten(g: Graph, g': Graph, o: OpId, i: nat, result: ResultStatus, text: Text, knowledge: Knowledge,
                                accepted: bool, hooks: seq<HookId>) {
    && RunsOn(g, g', o) && SameCharges(g, g', o) && |g'.log| == |g.log| + 1 && g'.session == g.session
    && i < |g.ops[o].pending| && g'.ops[o].pending == g.ops[o].pending[..i] + g.ops[o].pending[i + 1..]
    && g'.ops[o].active.None? && g'.ops[o].request == (if |g.ops[o].pending| == 1 then None else g.ops[o].request)
    && IsResultOf(g'.log[|g.log|], o, g.ops[o].pending[i], result, text, knowledge, accepted, hooks)
  }

  /** An executor's result needs its call's live tool effect, takes that effect's reservation
      and records its accepted selection. */
  lemma ExecutedWrites(g: Graph, o: OpId, c: CallId, result: ResultStatus, text: Text, knowledge: Knowledge, i: nat)
    requires o in g.ops && PendsAt(g.ops[o].pending, c, i)
    ensures CommitExecuted(g, o, c, result, text, knowledge).Some? <==>
              g.ops[o].status == Running && UnderTool(g.ops[o], c) && g.ops[o].active.value.result == g.ops[o].pending[i].result
    ensures CommitExecuted(g, o, c, result, text, knowledge).Some? ==>
              ResultWritten(g, CommitExecuted(g, o, c, result, text, knowledge).value, o, i, result, text, knowledge, true,
                            g.ops[o].active.value.hooks)
  {
    assert IndexOfCall(g.ops[o].pending, c) == i;
  }

  lemma ImmediateWrites(g: Graph, o: OpId, c: CallId, out: Outcome, i: nat)
    requires o in g.ops && PendsAt(g.ops[o].pending, c, i)
    ensures CommitImmediate(g, o, c, out).Some? <==> Quiet(g, o)
    ensures CommitImmediate(g, o, c, out).Some? ==>
              ResultWritten(g, CommitImmediate(g, o, c, out).value, o, i, out.result, out.text, out.knowledge, out.accepted, out.hooks)
  {
    assert IndexOfCall(g.ops[o].pending, c) == i;
  }

  /** A call that is not pending gets no result. */
  lemma NotPendingWritesNothing(g: Graph, o: OpId, c: CallId, out: Outcome)
    requires o in g.ops ==> forall p :: p in g.ops[o].pending ==> p.call != c
    ensures CommitImmediate(g, o, c, out).None? && CommitExecuted(g, o, c, out.result, out.text, out.knowledge).None?
  {
    if o in g.ops {
      assert IndexOfCall(g.ops[o].pending, c) < 0;
    }
  }

  /** A hook's result, bound to its call, or to its request with the evidence it consumed. */
  predicate IsHookRecord(e: Entry, o: OpId, effect: Effect, outcome: HookStatus, knowledge: Knowledge) {
    && e.owner == Some(o) && e.body.HookResult? && e.body.outcome == outcome && e.body.knowledge == knowledge
    && e.id == effect.result
    && ((effect.CallHookEffect? && e.body.hook == effect.hook && e.body.binding == ForCall(effect.call) && e.body.consumes.None?)
        || (effect.RequestHookEffect? && e.body.hook == effect.hook && e.body.binding == ForRequest(effect.request) &&
            e.body.consumes == Some(effect.evidence)))
  }

  /** A settled hook is recorded under its reservation; a request's own also joins the hook
      results of the published request, at the end. */
  ghost predicate HookWritten(g: Graph, g': Graph, o: OpId, outcome: HookStatus, knowledge: Knowledge) {
    && RunsOn(g, g', o) && SameCharges(g, g', o) && |g'.log| == |g.log| + 1 && g'.session == g.session && HookLive(g.ops[o])
    && IsHookRecord(g'.log[|g.log|], o, g.ops[o].active.value, outcome, knowledge)
    && g'.ops[o].active.None? && g'.ops[o].pending == g.ops[o].pending
    && (g.ops[o].active.value.CallHookEffect? || g.ops[o].request.None? ==> g'.ops[o].request == g.ops[o].request)
    && (g.ops[o].active.value.RequestHookEffect? && g.ops[o].request.Some? ==>
          && g'.ops[o].request.Some?
          && var was, request := g.ops[o].request.value, g'.ops[o].request.value;
             && request.id == was.id && request.checkpoint == was.checkpoint && request.boundary == was.boundary
             && request.hookResults == was.hookResults + [g.ops[o].active.value.result])
  }

  lemma HookWrites(g: Graph, o: OpId, outcome: HookStatus, knowledge: Knowledge)
    ensures CommitHook(g, o, outcome, knowledge).Some? <==> o in g.ops && g.ops[o].status == Running && HookLive(g.ops[o])
    ensures forall result :: HookExpected(g, o, result) <==>
                               CommitHook(g, o, outcome, knowledge).Some? && g.ops[o].active.value.result == result
    ensures CommitHook(g, o, outcome, knowledge).Some? ==>
              HookWritten(g, CommitHook(g, o, outcome, knowledge).value, o, outcome, knowledge)
  {
  }

  // ---- Settlement ------------------------------------------------------------------------------

  predicate IsInterruption(e: Entry, o: OpId, id: EntryId) {
    && e.id == id && e.owner == Some(o) && e.body.Signal? && e.body.kind == InterruptionSignal && e.body.related == Some(o)
    && e.body.text == "Operation interrupted."
  }

  /** The entries of a terminal transition: first the preserved payload, then the interrupted
      record of a live hook, then one interrupted result for each call left, then the
      interruption signal, exactly for an interruption, and last the settlement. */
  ghost predicate EndingWritten(log: seq<Entry>, log': seq<Entry>, o: OpId, op: Operation, e: Ending) {
    var left := CallsLeft(op, e.assistant);
    var first := |log| + EntriesBefore(op, e.assistant);
    && log <= log' && |log'| == first + |left| + (if e.status == Interruption then 2 else 1)
    && (e.assistant.Some? ==> IsPayload(log'[|log|], o, e.assistant.value))
    && (HookLive(op) ==> IsHookRecord(log'[first - 1], o, op.active.value, HookInterrupted, Unknown))
    && (forall k :: 0 <= k < |left| ==> Interrupts(log, o, op, left[k], log'[first + k]))
    && (e.status == Interruption ==> IsInterruption(log'[first + |left|], o, e.signal))
    && IsSettlementOf(log'[|log'| - 1], o, op, e)
  }

  function Facts(e: Ending): seq<Fact> {
    if e.carrier.Some? then e.carrier.value.facts else []
  }

  predicate ModelLive(op: Operation) {
    op.active.Some? && (op.active.value.ConversationEffect? || op.active.value.MaintenanceEffect?)
  }

  /** A publication that ends a maintenance procedure with something to witness. */
  predicate EndsProcedure(e: Ending) {
    e.maintenance && e.carrier.Some? && (e.carrier.value.facts != [] || e.carrier.value.consumed.Some?)
  }

  /** Some fact the ending carries accounts for this request already. */
  predicate Carried(e: Ending, r: RequestId) {
    exists k :: 0 <= k < |Facts(e)| && Facts(e)[k].request == r
  }

  /** The request a terminal concerns: the live maintenance effect's, else the published one,
      else the live conversation's. */
  predicate NamesRequest(r: Option<RequestId>, op: Operation, payload: bool) {
    if !payload && op.active.Some? && op.active.value.MaintenanceEffect? then r == Some(op.active.value.request)
    else if op.request.Some? then r == Some(op.request.value.id)
    else if !payload && op.active.Some? && op.active.value.ConversationEffect? then r == Some(op.active.value.request)
    else r.None?
  }

  /** The settlement takes the identity a live model effect reserved, unless a preserved
      payload took it. Without a payload it is itself a producer: of the reported usage, or
      of the live model request that no carried fact accounts for. */
  predicate IsSettlementOf(x: Entry, o: OpId, op: Operation, e: Ending) {
    && x.owner == Some(o) && x.body.Settled?
    && x.id == (if e.assistant.None? && ModelLive(op) then op.active.value.result else e.settlement)
    && var s := x.body.settlement;
       && s.status == e.status && s.detail == e.detail && s.maintenance == e.maintenance && s.facts == Facts(e)
       && (e.assistant.Some? ==> s.producer.None? && s.usage.None? && s.evidence.None?)
       && (e.assistant.None? && e.usage.Some? ==> s.producer == Some(e.usage.value.0) && s.usage == Some(e.usage.value.1))
       && (e.assistant.None? && e.usage.None? ==>
             && s.usage.None? && (s.producer.Some? <==> ModelLive(op) && !Carried(e, op.active.value.request))
             && (s.producer.Some? ==> s.producer.value == op.active.value.model))
       && (EndsProcedure(e) ==> s.request == Some(e.carrier.value.producer) && s.consumed == e.carrier.value.source)
       && (!EndsProcedure(e) ==> s.consumed.None? && NamesRequest(s.request, op, e.assistant.Some?))
       && (e.assistant.None? ==>
             s.evidence == if op.active.Some? && op.active.value.ConversationEffect? then Some(op.active.value.evidence)
                           else if e.maintenance && e.carrier.Some? then e.carrier.value.consumed
                           else None)
  }

  lemma SettlementSays(o: OpId, op: Operation, e: Ending)
    ensures IsSettlementOf(SettlementEntry(o, op, e), o, op, e)
  {
    if ModelLive(op) {
      assert WitnessesRequest(Facts(e), op.active.value.request) <==> Carried(e, op.active.value.request);
    }
  }

  lemma EndingWrites(log: seq<Entry>, o: OpId, op: Operation, e: Ending)
    ensures EndingWritten(log, EndingLog(log, o, op, e), o, op, e)
  {
    hide EndingLog, InterruptedEntry, SettlementEntry, SignalEntry, HookEntry, AssistantEntry, Interrupts, IsSettlementOf, CallsLeft;
    var left := CallsLeft(op, e.assistant);
    var first := |log| + EntriesBefore(op, e.assistant);
    var log' := EndingLog(log, o, op, e);
    var a, b, m, s := EndingIndexed(log, o, op, e);
    forall k | 0 <= k < |left| ensures Interrupts(log, o, op, left[k], log'[first + k]) {
      InterruptedResults(log, o, op, e, k);
    }
    SettlementSays(o, op, e);
    PartsSay(o, op, e);
  }

  /** The pieces a terminal transition appends around its settlement. */
  predicate Parts(o: OpId, op: Operation, e: Ending, a: seq<Entry>, b: seq<Entry>, m: seq<Entry>, s: seq<Entry>) {
    && |a| == (if e.assistant.Some? then 1 else 0) && (e.assistant.Some? ==> a[0] == AssistantEntry(o, e.assistant.value))
    && |b| == (if HookLive(op) then 1 else 0) && (HookLive(op) ==> b[0] == HookEntry(o, op.active.value, HookInterrupted, Unknown))
    && |m| == |CallsLeft(op, e.assistant)|
    && |s| == (if e.status == Interruption then 1 else 0)
    && (e.status == Interruption ==> s[0] == SignalEntry(e.signal, o, InterruptionSignal))
  }

  lemma EndingParts(log: seq<Entry>, o: OpId, op: Operation, e: Ending)
    returns (a: seq<Entry>, b: seq<Entry>, m: seq<Entry>, s: seq<Entry>)
    ensures Parts(o, op, e, a, b, m, s)
    ensures EndingLog(log, o, op, e) == log + a + b + m + s + [SettlementEntry(o, op, e)]
  {
    assert op.pending + CallsPending(o, e.assistant) == CallsLeft(op, e.assistant);
    hide InterruptedEntry, SettlementEntry, SignalEntry, HookEntry, AssistantEntry, CallsPending, CallsLeft;
    a, b, s := AssistantEntries(o, e.assistant), HookRemnant(o, op.active), SignalPart(o, e);
    m := InterruptedEntries(EndingOpening(log, o, op, e), o, op.active, CallsLeft(op, e.assistant));
  }

  lemma EndingIndexed(log: seq<Entry>, o: OpId, op: Operation, e: Ending)
    returns (a: seq<Entry>, b: seq<Entry>, m: seq<Entry>, s: seq<Entry>)
    ensures Parts(o, op, e, a, b, m, s) && Indexed(log, a, b, m, s, SettlementEntry(o, op, e), EndingLog(log, o, op, e))
  {
    hide EndingLog, SettlementEntry, SignalEntry, HookEntry, AssistantEntry, CallsLeft, Indexed;
    a, b, m, s := EndingParts(log, o, op, e);
    Joined(log, a, b, m, s, SettlementEntry(o, op, e));
  }

  predicate Indexed(log: seq<Entry>, a: seq<Entry>, b: seq<Entry>, m: seq<Entry>, s: seq<Entry>, x: Entry, log': seq<Entry>) {
    && log <= log' && |log'| == |log| + |a| + |b| + |m| + |s| + 1
    && (|a| == 1 ==> log'[|log|] == a[0]) && (|b| == 1 ==> log'[|log| + |a|] == b[0])
    && (|s| == 1 ==> log'[|log'| - 2] == s[0]) && log'[|log'| - 1] == x
  }

  lemma Joined(log: seq<Entry>, a: seq<Entry>, b: seq<Entry>, m: seq<Entry>, s: seq<Entry>, x: Entry)
    requires |a| <= 1 && |b| <= 1 && |s| <= 1
    ensures Indexed(log, a, b, m, s, x, log + a + b + m + s + [x])
  {
  }

  lemma PartsSay(o: OpId, op: Operation, e: Ending)
    ensures e.assistant.Some? ==> IsPayload(AssistantEntry(o, e.assistant.value), o, e.assistant.value)
    ensures HookLive(op) ==> IsHookRecord(HookEntry(o, op.active.value, HookInterrupted, Unknown), o, op.active.value, HookInterrupted, Unknown)
    ensures IsInterruption(SignalEntry(e.signal, o, InterruptionSignal), o, e.signal)
  {
  }

  /** The settled records: nothing runs or waits, the Session is idle, and the marker of
      unrecorded maintenance stands exactly when it stood and no fact was carried. */
  ghost predicate SettlementWritten(g: Graph, g': Graph, o: OpId, e: Ending) {
    && o in g.ops && Beside(g, g', o) && EndingWritten(g.log, g'.log, o, g.ops[o], e)
    && g'.session.current.None? && g'.session.open == g.session.open && g'.session.checkpoint == g.session.checkpoint
    && g'.ops[o].status == e.status && g'.ops[o].active.None? && g'.ops[o].request.None? && g'.ops[o].pending == []
    && g'.ops[o].terminal.Some? && g'.ops[o].terminal.value.detail == e.detail
    && |g'.log| > 0 && g'.ops[o].terminal.value.settlement == g'.log[|g'.log| - 1].id
    && (g'.ops[o].unreportedMaintenance <==> g.ops[o].unreportedMaintenance && Facts(e) == [])
  }

  lemma SettlementWrites(g: Graph, o: OpId, e: Ending)
    requires IsRunning(g, o)
    ensures SettlementWritten(g, Settle(g, o, e), o, e)
  {
    hide EndingUsage, EndingLog, EndingWritten;
    EndingWrites(g.log, o, g.ops[o], e);
    SettlementIdentityLast(g.log, o, g.ops[o], e);
  }

  lemma SettlementIdentityLast(log: seq<Entry>, o: OpId, op: Operation, e: Ending)
    ensures var log' := EndingLog(log, o, op, e);
            log <= log' && |log'| > 0 && log'[|log'| - 1].id == SettlementIdentity(op, e)
  {
    hide InterruptedEntries, SignalEntry;
    EndingLogSplits(log, o, op, e);
  }

  /** What restart recovery settles with. */
  lemma RecoveryWrites(signal: EntryId, settlement: EntryId)
    ensures var e := RecoveryEnding(signal, settlement);
            && e.status == Interruption && e.detail == "Operation interrupted by Runtime loss."
            && e.assistant.None? && e.usage.None? && !e.maintenance && e.carrier.None?
            && e.signal == signal && e.settlement == settlement
  {
  }

  // ---- Checkpoints ---------------------------------------------------------------------------------

  /** The newest message at a position after the cut. */
  predicate NewestAfter(log: seq<Entry>, cut: int, p: int) {
    && 0 <= p < |log| && cut < p && MessageBearing(log[p].body)
    && forall j :: p < j < |log| ==> !MessageBearing(log[j].body)
  }

  predicate NoneAfter(log: seq<Entry>, cut: int) {
    forall p :: 0 <= p < |log| && cut < p ==> !MessageBearing(log[p].body)
  }

  lemma {:induction false} NewestFound(log: seq<Entry>, cut: int)
    ensures NewestMessage(log, cut).None? <==> NoneAfter(log, cut)
    ensures forall p :: NewestAfter(log, cut, p) ==> NewestMessage(log, cut) == Some(log[p].id)
  {
    if |log| > 0 && |log| - 1 > cut {
      var n := |log| - 1;
      if MessageBearing(log[n].body) {
        assert forall p :: NewestAfter(log, cut, p) ==> p == n;
      } else {
        NewestFound(log[..n], cut);
        assert forall p :: 0 <= p < n ==> log[..n][p] == log[p];
        assert NoneAfter(log, cut) <==> NoneAfter(log[..n], cut);
        forall p | NewestAfter(log, cut, p) ensures NewestMessage(log, cut) == Some(log[p].id) {
          assert NewestAfter(log[..n], cut, p);
        }
      }
    }
  }

  /** The boundary a checkpoint rebuilds: the newest message after its cut, if there is one,
      and the checkpoint itself if not. */
  ghost predicate RebuiltAt(log: seq<Entry>, boundary: EntryId, checkpoint: EntryId, rebuilt: EntryId) {
    forall cut :: 0 <= cut < |log| && log[cut].id == boundary ==>
      && (NoneAfter(log, cut) ==> rebuilt == checkpoint)
      && forall p :: NewestAfter(log, cut, p) ==> rebuilt == log[p].id
  }

  lemma RebuiltWrites(log: seq<Entry>, boundary: EntryId, checkpoint: EntryId)
    requires forall i, j :: 0 <= i < |log| && 0 <= j < |log| && log[i].id == log[j].id ==> i == j
    ensures RebuiltAt(log, boundary, checkpoint, RebuiltBoundary(log, boundary, checkpoint))
  {
    forall cut | 0 <= cut < |log| && log[cut].id == boundary
      ensures NoneAfter(log, cut) ==> RebuiltBoundary(log, boundary, checkpoint) == checkpoint
      ensures forall p :: NewestAfter(log, cut, p) ==> RebuiltBoundary(log, boundary, checkpoint) == log[p].id
    {
      assert PositionOf(log, boundary) == cut;
      NewestFound(log, cut);
    }
  }

  /** A checkpoint records its messages, its cut, the facts and what they consumed; the Session
      names it; and it retires the marker, the facts now being recorded. */
  ghost predicate CheckpointWritten(g: Graph, g': Graph, o: OpId, plan: Plan, carrier: Carrier) {
    && RunsOn(g, g', o) && |g'.log| == |g.log| + 1
    && g'.session.checkpoint == Some(plan.id) && !g'.ops[o].unreportedMaintenance
    && g'.ops[o].active == g.ops[o].active && g'.ops[o].pending == g.ops[o].pending
    && IsCheckpoint(g'.log[|g.log|], o, plan, carrier)
    && CheckpointMoves(g, g'.ops[o].request, o, plan, carrier)
  }

  predicate IsCheckpoint(e: Entry, o: OpId, plan: Plan, carrier: Carrier) {
    && e.id == plan.id && e.owner == Some(o) && e.body.Checkpoint? && e.body.messages == plan.messages
    && e.body.boundary == plan.boundary && e.body.facts == carrier.facts && e.body.consumed == carrier.source
    && (carrier.consumed.Some? ==> e.body.evidence == carrier.consumed.value)
    && (carrier.consumed.None? ==> e.body.evidence == plan.consumed)
  }

  /** The published request moves to the checkpoint and its rebuilt boundary; a suspended
      conversation's is published there; and a manual procedure publishes none. */
  ghost predicate CheckpointMoves(g: Graph, request: Option<RunningRequest>, o: OpId, plan: Plan, carrier: Carrier)
    requires o in g.ops
  {
    && (request.Some? <==> g.ops[o].request.Some? || (g.ops[o].admission.kind == MessageKind && carrier.source.Some?))
    && (request.Some? ==>
          && request.value.checkpoint == Some(plan.id)
          && request.value.boundary == RebuiltBoundary(g.log, plan.boundary, plan.id))
    && (g.ops[o].request.Some? && request.Some? ==>
          request.value.id == g.ops[o].request.value.id && request.value.hookResults == g.ops[o].request.value.hookResults)
    && (g.ops[o].request.None? && request.Some? ==> request.value.id == carrier.source.value && request.value.hookResults == [])
  }

  lemma CheckpointWrites(g: Graph, o: OpId, plan: Plan, carrier: Carrier)
    ensures CommitCheckpoint(g, o, plan, carrier).Some? <==> o in g.ops && g.ops[o].status == Running
    ensures CommitCheckpoint(g, o, plan, carrier).Some? ==>
              CheckpointWritten(g, CommitCheckpoint(g, o, plan, carrier).value, o, plan, carrier)
  {
    hide ChargeFacts, RebuiltBoundary;
  }

  // ---- Signals and lifecycle ---------------------------------------------------------------------

  /** A background completion is an entry of no Operation and changes no register. */
  ghost predicate CompletionWritten(g: Graph, g': Graph, entry: EntryId, text: Text) {
    && g'.session == g.session && g'.ops == g.ops && |g'.log| == |g.log| + 1 && g.log <= g'.log
    && var e := g'.log[|g.log|];
       e.id == entry && e.owner.None? && e.body.Signal? && e.body.kind == CompletionSignal && e.body.related.None? &&
       e.body.text == text
  }

  lemma CompletionWrites(g: Graph, entry: EntryId, text: Text)
    ensures CompletionWritten(g, RecordCompletion(g, entry, text), entry, text)
  {
  }

  /** Only an idle Session opens or archives, and nothing else of it changes. */
  lemma LifecycleWrites(g: Graph, open: bool)
    ensures SetLifecycle(g, open).Some? <==> g.session.current.None?
    ensures SetLifecycle(g, open).Some? ==>
              var g' := SetLifecycle(g, open).value;
              && g'.session.open == open && g'.log == g.log && g'.ops == g.ops
              && g'.session.fork == g.session.fork && g'.session.current.None? && g'.session.checkpoint == g.session.checkpoint
              && g'.session.usage == g.session.usage
  {
  }

  // ---- Whole outcomes ----------------------------------------------------------------------------

  /** A call's result, written for its first pending occurrence. */
  ghost predicate CallWritten(g: Graph, g': Graph, o: OpId, c: CallId, out: Outcome, fromIntent: bool) {
    && o in g.ops && (fromIntent ==> UnderTool(g.ops[o], c)) && (!fromIntent ==> Quiet(g, o))
    && exists i :: PendsAt(g.ops[o].pending, c, i) &&
                   ResultWritten(g, g', o, i, out.result, out.text, out.knowledge, fromIntent || out.accepted,
                                 if fromIntent then g.ops[o].active.value.hooks else out.hooks)
  }

  lemma CallWrites(g: Graph, o: OpId, c: CallId, out: Outcome, fromIntent: bool)
    requires CallResult(g, o, c, out, fromIntent).Some?
    ensures CallWritten(g, CallResult(g, o, c, out, fromIntent).value, o, c, out, fromIntent)
  {
    hide ResultWritten;
    var i := IndexOfCall(g.ops[o].pending, c);
    assert PendsAt(g.ops[o].pending, c, i);
    if fromIntent {
      ExecutedWrites(g, o, c, out.result, out.text, out.knowledge, i);
    } else {
      ImmediateWrites(g, o, c, out, i);
    }
  }

  /** A model effect's result closes exactly the intent it names; an outer terminal, a quiet Operation. */
  lemma ExpectedResults(g: Graph, o: OpId, intent: Option<EntryId>, out: EffectOutcome)
    ensures ResultExpected(g, o, intent, out) <==>
              match out
              case ConversationOutput(_, _) => ConversationLive(g, o) && intent == Some(g.ops[o].active.value.result)
              case MaintenanceOutput => MaintenanceLive(g, o) && intent == Some(g.ops[o].active.value.result)
              case TerminalOutput(_) =>
                (intent.None? && Quiet(g, o)) ||
                ((ConversationLive(g, o) || MaintenanceLive(g, o)) && intent == Some(g.ops[o].active.value.result))
  {
  }

  ghost predicate OutcomeWritten(g: Graph, g': Graph, o: OpId, out: EffectOutcome) {
    match out
    case ConversationOutput(a, signal) => ModelResultWritten(g, g', o, a, signal)
    case MaintenanceOutput => MaintenanceResultWritten(g, g', o)
    case TerminalOutput(e) => SettlementWritten(g, g', o, e)
  }

  lemma OutcomeWrites(g: Graph, o: OpId, out: EffectOutcome)
    requires IsRunning(g, o) && AfterOutcome(g, o, out).Some?
    ensures OutcomeWritten(g, AfterOutcome(g, o, out).value, o, out)
  {
    hide Settle, CommitModelResult, CommitMaintenanceResult, ModelResultWritten, SettlementWritten, MaintenanceResultWritten;
    match out
    case ConversationOutput(a, signal) => ModelResultWrites(g, o, a, signal);
    case MaintenanceOutput => MaintenanceResultWrites(g, o);
    case TerminalOutput(e) => SettlementWrites(g, o, e);
  }

  /** One maintenance publication; a manual procedure's checkpoint and success are one. */
  ghost predicate PublicationWritten(g: Graph, g': Graph, o: OpId, p: Publication) {
    match p
    case Interrupting(e) => SettlementWritten(g, g', o, e)
    case NothingManual(e) => SettlementWritten(g, g', o, e)
    case Checkpointing(plan, carrier) => CheckpointWritten(g, g', o, plan, carrier)
    case CheckpointingManual(plan, carrier, settlement, signal) =>
      exists mid :: CheckpointWritten(g, mid, o, plan, carrier) && SettlementWritten(mid, g', o, ManualSuccess(settlement, signal))
  }

  lemma PublicationWrites(g: Graph, o: OpId, p: Publication)
    requires IsRunning(g, o)
    ensures PublicationWritten(g, AfterPublication(g, o, p), o, p)
  {
    hide Settle, CommitCheckpoint, SettlementWritten, CheckpointWritten;
    match p
    case Interrupting(e) => SettlementWrites(g, o, e);
    case NothingManual(e) => SettlementWrites(g, o, e);
    case Checkpointing(plan, carrier) => CheckpointWrites(g, o, plan, carrier);
    case CheckpointingManual(plan, carrier, settlement, signal) =>
      CheckpointWrites(g, o, plan, carrier);
      CheckpointRunsOn(g, o, plan, carrier);
      SettlementWrites(CommitCheckpoint(g, o, plan, carrier).value, o, ManualSuccess(settlement, signal));
  }

  lemma CheckpointRunsOn(g: Graph, o: OpId, plan: Plan, carrier: Carrier)
    requires IsRunning(g, o)
    ensures CommitCheckpoint(g, o, plan, carrier).Some? && IsRunning(CommitCheckpoint(g, o, plan, carrier).value, o)
  {
    hide RebuiltBoundary, ChargeFacts;
  }
}
