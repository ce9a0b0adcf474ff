/** Every model request is charged at most once: over any run it has at most one durable
    producer, among assistant entries, no-output settlements and maintenance facts. */
module Charges {
  import opened Records
  import opened Validator
  import opened Transactions
  import opened Growth
  import opened Settling
  import opened Commits
  import opened View
  import opened Driver
  import opened Discipline
  import opened Shape
  import opened Fork
  import opened Invocations
  import opened Runs
  import opened Estimate

  // ---- Producer slots -----------------------------------------------------------------

  function FactSlots(facts: seq<Fact>, r: RequestId): nat {
    if |facts| == 0 then 0
    else FactSlots(facts[..|facts| - 1], r) + if facts[|facts| - 1].request == r then 1 else 0
  }

  /** How many times one entry charges a request. */
  function Slots(b: Body, r: RequestId): nat {
    (if b.Assistant? && b.request == r then 1 else 0)
    + (if b.Settled? && b.settlement.producer.Some? && b.settlement.request == Some(r) then 1 else 0)
    + FactSlots(FactsOf(b), r)
  }

  /** How many times an Operation's entries charge a request. */
  function ProducerCount(log: seq<Entry>, o: OpId, r: RequestId): nat {
    if |log| == 0 then 0
    else ProducerCount(log[..|log| - 1], o, r) + if Owned(log[|log| - 1], o) then Slots(log[|log| - 1].body, r) else 0
  }

  lemma {:induction false} FactSlotsSingle(facts: seq<Fact>, r: RequestId)
    requires DistinctFacts(facts)
    ensures FactSlots(facts, r) == if InFacts(facts, r) then 1 else 0
  {
    if |facts| > 0 {
      var n := |facts| - 1;
      FactSlotsSingle(facts[..n], r);
      if InFacts(facts[..n], r) {
        var k :| 0 <= k < n && facts[..n][k].request == r;
        assert facts[k].request == r;
      }
      if InFacts(facts, r) && facts[n].request != r {
        var k :| 0 <= k < |facts| && facts[k].request == r;
        assert facts[..n][k].request == r;
      }
    }
  }

  lemma {:induction false} CountConcat(log: seq<Entry>, es: seq<Entry>, o: OpId, r: RequestId)
    ensures ProducerCount(log + es, o, r) == ProducerCount(log, o, r) + ProducerCount(es, o, r)
  {
    if |es| == 0 {
      assert log + es == log;
    } else {
      var n := |es| - 1;
      CountConcat(log, es[..n], o, r);
      assert (log + es)[..|log| + n] == log + es[..n];
      assert (log + es)[|log| + n] == es[n];
    }
  }

  lemma {:induction false} NoSlots(log: seq<Entry>, o: OpId, r: RequestId)
    requires forall i :: 0 <= i < |log| && Owned(log[i], o) ==> Slots(log[i].body, r) == 0
    ensures ProducerCount(log, o, r) == 0
  {
    if |log| > 0 {
      assert forall i :: 0 <= i < |log| - 1 ==> log[..|log| - 1][i] == log[i];
      NoSlots(log[..|log| - 1], o, r);
    }
  }

  lemma {:induction false} NoFactSlots(facts: seq<Fact>, r: RequestId)
    requires !InFacts(facts, r)
    ensures FactSlots(facts, r) == 0
  {
    if |facts| > 0 {
      var n := |facts| - 1;
      assert forall k :: 0 <= k < n ==> facts[..n][k] == facts[k];
      NoFactSlots(facts[..n], r);
    }
  }

  lemma UnmentionedUncharged(log: seq<Entry>, o: OpId, r: RequestId)
    requires Unmentioned(log, r)
    ensures ProducerCount(log, o, r) == 0
  {
    forall i | 0 <= i < |log| ensures Slots(log[i].body, r) == 0 {
      assert !Mentions(log[i].body, r);
      NoFactSlots(FactsOf(log[i].body), r);
    }
    NoSlots(log, o, r);
  }

  /** An entry that records a request's production is counted, and only such an entry. */
  lemma SlotsAreProducers(b: Body, r: RequestId)
    ensures Slots(b, r) > 0 <==> Produces(b, r)
  {
    if !InFacts(FactsOf(b), r) {
      NoFactSlots(FactsOf(b), r);
    } else {
      FactSlotsPositive(FactsOf(b), r);
    }
  }

  lemma {:induction false} FactSlotsPositive(facts: seq<Fact>, r: RequestId)
    requires InFacts(facts, r)
    ensures FactSlots(facts, r) > 0
  {
    var k :| 0 <= k < |facts| && facts[k].request == r;
    if k < |facts| - 1 {
      assert facts[..|facts| - 1][k] == facts[k];
      FactSlotsPositive(facts[..|facts| - 1], r);
    }
  }

  // ---- The invariant --------------------------------------------------------------------

  /** A request the current Operation may still charge. */
  predicate Awaiting(s: Sys, o: OpId, r: RequestId) {
    Driving(s) && Current(s) == o &&
    ((s.frame.Rounding? && s.frame.request == r) || InFacts(s.facts, r) || ModelRequest(Op(s).active, r))
  }

  ghost predicate MemoryDistinct(s: Sys) {
    DistinctFacts(s.facts) && (s.frame.Rounding? ==> !InFacts(s.facts, s.frame.request))
  }

  ghost predicate ChargedOnce(s: Sys) {
    && MemoryDistinct(s)
    && (forall o, r :: ProducerCount(s.g.log, o, r) <= 1)
    && (forall o, r :: Awaiting(s, o, r) ==> ProducerCount(s.g.log, o, r) == 0)
  }

  /** A step appends these entries; each charges only what was awaited, once, and nothing
      charged stays awaited. */
  ghost predicate Settles(s: Sys, s': Sys, es: seq<Entry>) {
    && s'.g.log == s.g.log + es
    && (forall o, r :: ProducerCount(es, o, r) <= 1)
    && (forall o, r :: ProducerCount(es, o, r) > 0 ==> Awaiting(s, o, r) && !Awaiting(s', o, r))
  }

  ghost predicate AwaitsFresh(s: Sys, s': Sys) {
    forall o, r :: Awaiting(s', o, r) ==> Awaiting(s, o, r) || Unmentioned(s.g.log, r)
  }

  lemma StepCharges(s: Sys, s': Sys, es: seq<Entry>)
    requires ChargedOnce(s) && Settles(s, s', es) && AwaitsFresh(s, s') && MemoryDistinct(s')
    ensures ChargedOnce(s')
  {
    hide Awaiting, MemoryDistinct, Unmentioned, ProducerCount;
    forall o, r ensures ProducerCount(s'.g.log, o, r) <= 1
                ensures Awaiting(s', o, r) ==> ProducerCount(s'.g.log, o, r) == 0 {
      CountConcat(s.g.log, es, o, r);
      if Unmentioned(s.g.log, r) {
        UnmentionedUncharged(s.g.log, o, r);
      }
    }
  }

  lemma NoCharge(s: Sys, s': Sys, es: seq<Entry>)
    requires s'.g.log == s.g.log + es
    requires forall i, r :: 0 <= i < |es| ==> Slots(es[i].body, r) == 0
    ensures Settles(s, s', es)
  {
    forall o, r ensures ProducerCount(es, o, r) == 0 {
      NoSlots(es, o, r);
    }
  }

  // ---- Memory, intents and admissions ------------------------------------------------------

  lemma MemoryCharges(s: Sys, step: Step)
    requires ChargedOnce(s) && InMemory(step) && Next(s, step).Some?
    ensures ChargedOnce(Next(s, step).value)
  {
    hide FreshEntry, ProducerCount, Unmentioned, AdmitMessageNext, AdmitCompactNext, BeginRequestHookNext,
      CommitRequestHookNext, BeginMaintenanceNext, CommitMaintenanceNext, CheckpointNext, ManualCheckpointNext,
      ManualNoneNext, BeginModelNext, CommitModelNext, FinishModelNext, FinishMaintenanceNext, FinishQuietNext,
      BeginCallHookNext, CommitCallHookNext, SettleCallNext, BeginToolNext, InvokeNext, CommitToolNext, CompletionNext,
      LifecycleNext, RecoverNext;
    var s' := Next(s, step).value;
    assert s'.g == s.g && s'.g.log == s.g.log + [];
    NoCharge(s, s', []);
    if step.OpenRound? {
      assert Unmentioned(s.g.log, step.request) by { OpenedFresh(s, step.request, step.plan); }
    }
    StepCharges(s, s', []);
  }

  lemma OpenedFresh(s: Sys, r: RequestId, plan: seq<Planned>)
    requires OpenRoundNext(s, r, plan).Some?
    ensures Unmentioned(s.g.log, r)
  {
  }

  lemma IntentCharges(s: Sys, step: Step)
    requires ChargedOnce(s) && IsIntent(step) && Next(s, step).Some?
    ensures ChargedOnce(Next(s, step).value)
  {
    hide FreshEntry, ProducerCount, RoundEvidence, ChargedOnce;
    var s' := Next(s, step).value;
    assert s'.g.log == s.g.log + [];
    NoCharge(s, s', []);
    assert MemoryDistinct(s) by { MemoryOf(s); }
    IntentMemory(s, step);
    StepCharges(s, s', []);
  }

  lemma MemoryOf(s: Sys)
    requires ChargedOnce(s)
    ensures MemoryDistinct(s)
  {
  }

  lemma IntentMemory(s: Sys, step: Step)
    requires MemoryDistinct(s) && IsIntent(step) && Next(s, step).Some?
    ensures MemoryDistinct(Next(s, step).value) && AwaitsFresh(s, Next(s, step).value)
  {
    hide FreshEntry, RoundEvidence, BeginMaintenanceNext;
    if step.BeginMaintenanceStep? {
      MaintenanceMemory(s, step.result, step.producer, step.model, step.committed);
    }
  }

  /** The retained input's request is new. */
  lemma MaintenanceMemory(s: Sys, result: EntryId, producer: RequestId, m: ModelRef, committed: bool)
    requires MemoryDistinct(s) && BeginMaintenanceNext(s, result, producer, m, committed).Some?
    ensures var s' := BeginMaintenanceNext(s, result, producer, m, committed).value; MemoryDistinct(s') && AwaitsFresh(s, s')
  {
    hide FreshEntry;
  }

  lemma AdmissionCharges(s: Sys, step: Step)
    requires Inv(s) && ChargedOnce(s) && Next(s, step).Some?
    requires step.AdmitMessageStep? || step.AdmitCompactStep? || step.CompletionStep? || step.LifecycleStep?
    ensures ChargedOnce(Next(s, step).value)
  {
    hide Accepted, FactsFit, FrameOk, FreshEntry, ProducerCount, ChargedOnce;
    var s' := Next(s, step).value;
    var es := s'.g.log[|s.g.log|..];
    assert s'.g.log == s.g.log + es;
    NoCharge(s, s', es);
    MemoryOf(s);
    StepCharges(s, s', es);
  }

  // ---- Results -------------------------------------------------------------------------------

  lemma CallResultCharges(s: Sys, step: Step)
    requires ChargedOnce(s) && IsResult(step) && !step.CommitModelStep? && Next(s, step).Some?
    ensures ChargedOnce(Next(s, step).value)
  {
    hide Reconciles, FreshEntry, ProducerCount, ChargedOnce, OutcomeFollows, Contributed, WithoutIndex;
    var s' := Next(s, step).value;
    var e := s'.g.log[|s.g.log|];
    assert s'.g.log == s.g.log + [e];
    NoCharge(s, s', [e]);
    MemoryOf(s);
    StepCharges(s, s', [e]);
  }

  lemma ModelResultCharges(s: Sys, a: Option<Produced>, signal: Option<EntryId>)
    requires Inv(s) && ChargedOnce(s) && CommitModelNext(s, a, signal).Some?
    ensures ChargedOnce(CommitModelNext(s, a, signal).value)
  {
    hide Accepted, FactsFit, RoundLogOk, CompactQuiet, FreshProduced, FreshBeside, ProducerCount, ChargedOnce, ChargeProduced;
    var s' := CommitModelNext(s, a, signal).value;
    var es := ModelResultEntries(Current(s), a, signal);
    assert s'.g.log == s.g.log + es;
    MemoryOf(s);
    assert s'.facts == s.facts && s'.frame == Idle && Op(s').active.None?;
    assert Op(s).active.value.request == s.frame.request;
    forall o, r
      ensures ProducerCount(es, o, r) <= 1
      ensures ProducerCount(es, o, r) > 0 ==> o == Current(s) && r == s.frame.request
    {
      ModelResultSlots(Current(s), a, signal, o, r);
    }
    StepCharges(s, s', es);
  }

  lemma ModelResultSlots(op: OpId, a: Option<Produced>, signal: Option<EntryId>, o: OpId, r: RequestId)
    ensures ProducerCount(ModelResultEntries(op, a, signal), o, r)
            == if a.Some? && o == op && a.value.request == r then 1 else 0
  {
    var tail := if signal.Some? then [SignalEntry(signal.value, op, ContinuationSignal)] else [];
    CountConcat(AssistantEntries(op, a), tail, o, r);
    NoSlots(tail, o, r);
    AssistantSlots(op, a, o, r);
  }

  lemma AssistantSlots(op: OpId, a: Option<Produced>, o: OpId, r: RequestId)
    ensures ProducerCount(AssistantEntries(op, a), o, r) == if a.Some? && o == op && a.value.request == r then 1 else 0
  {
    if a.Some? {
      SingleCount(AssistantEntry(op, a.value), o, r);
    }
  }

  lemma SingleCount(e: Entry, o: OpId, r: RequestId)
    ensures ProducerCount([e], o, r) == if Owned(e, o) then Slots(e.body, r) else 0
  {
    assert [e][..0] == [];
  }

  // ---- Checkpoints -----------------------------------------------------------------------------

  lemma CheckpointCharges(s: Sys, plan: Plan, producer: RequestId, s': Sys)
    requires ChargedOnce(s) && Driving(s) && Op(s).active.None? && s'.facts == []
    requires s'.g == CommitCheckpoint(s.g, Current(s), plan, ProcedureCarrier(s, producer)).value
    requires s'.frame == s.frame || (s.frame.Rounding? && s'.frame.Rounding? && s'.frame.request == s.frame.request)
    ensures ChargedOnce(s')
  {
    hide RebuiltBoundary, ChargeFacts, ProducerCount, ChargedOnce;
    var o, carrier := Current(s), ProcedureCarrier(s, producer);
    var x := CheckpointEntry(o, plan, carrier);
    assert s'.g.log == s.g.log + [x] && carrier.facts == s.facts;
    MemoryOf(s);
    forall q, r
      ensures ProducerCount([x], q, r) <= 1
      ensures ProducerCount([x], q, r) > 0 ==> q == o && InFacts(s.facts, r)
    {
      SingleCount(x, q, r);
      FactSlotsSingle(s.facts, r);
    }
    StepCharges(s, s', [x]);
  }

  lemma CheckpointStepCharges(s: Sys, step: Step)
    requires ChargedOnce(s) && step.CheckpointStep? && Next(s, step).Some?
    ensures ChargedOnce(Next(s, step).value)
  {
    hide ProposalValid, RebuiltPaired, FreshEntry, CommitCheckpoint, ChargedOnce;
    CheckpointCharges(s, Plan(step.id, step.messages, step.boundary, RoundEvidence(s.frame)), step.producer, Next(s, step).value);
  }

  lemma ManualCheckpointCharges(s: Sys, step: Step)
    requires ChargedOnce(s) && step.ManualCheckpointStep? && Next(s, step).Some?
    ensures ChargedOnce(Next(s, step).value)
  {
    hide SafeCut, CoveredBoundary, RebuiltPaired, FreshEntry, ChargedOnce, EndingLog, RebuiltBoundary, ChargeFacts;
    var o := Current(s);
    var plan := Plan(step.id, step.messages, step.boundary, Evidence(s.frame.checkpoint, s.frame.tail.value, []));
    var mid := s.(g := CommitCheckpoint(s.g, o, plan, ProcedureCarrier(s, step.producer)).value, facts := []);
    CheckpointCharges(s, plan, step.producer, mid);
    SettleCharges(mid, Next(s, step).value, SuccessEnding(None, step.settlement, step.signal));
  }

  // ---- Settlements -------------------------------------------------------------------------------

  /** What an ending must agree with for its charges to be awaited ones. */
  ghost predicate ChargesAwaited(s: Sys, e: Ending)
    requires Driving(s)
  {
    && (CarriedFacts(e.carrier) == [] || CarriedFacts(e.carrier) == s.facts)
    && (e.assistant.Some? ==> ModelRequest(Op(s).active, e.assistant.value.request) && e.usage.None?)
    && (e.usage.Some? ==> IsModelEffect(Op(s).active))
    && (IsModelEffect(Op(s).active) && !InFacts(CarriedFacts(e.carrier), Op(s).active.value.request) ==>
          SettlementRequest(Op(s), e) == Some(Op(s).active.value.request))
    && (IsModelEffect(Op(s).active) && InFacts(CarriedFacts(e.carrier), Op(s).active.value.request) ==>
          e.assistant.None? && e.usage.None?)
  }

  lemma EndingSlots(log: seq<Entry>, o: OpId, op: Operation, e: Ending, q: OpId, r: RequestId)
    ensures ProducerCount(EndingEntries(log, o, op, e), q, r)
            == if q != o then 0
               else (if e.assistant.Some? && e.assistant.value.request == r then 1 else 0) + Slots(SettlementEntry(o, op, e).body, r)
  {
    hide SettlementEntry, InterruptedEntry, ProducerCount, HookEntry;
    var produced, remnant := AssistantEntries(o, e.assistant), HookRemnant(o, op.active);
    var closing := ClosingPart(EndingOpening(log, o, op, e), o, op, e);
    var x := SettlementEntry(o, op, e);
    CountConcat(produced + remnant + closing, [x], q, r);
    CountConcat(produced + remnant, closing, q, r);
    CountConcat(produced, remnant, q, r);
    AssistantSlots(o, e.assistant, q, r);
    SingleCount(x, q, r);
    SettlementOwned(o, op, e);
    ClosingCharges(log, o, op, e, r);
    NoSlots(remnant, q, r);
    NoSlots(closing, q, r);
  }

  lemma SettlementOwned(o: OpId, op: Operation, e: Ending)
    ensures SettlementEntry(o, op, e).owner == Some(o)
  {
  }

  lemma ClosingCharges(log: seq<Entry>, o: OpId, op: Operation, e: Ending, r: RequestId)
    ensures var remnant := HookRemnant(o, op.active); forall i :: 0 <= i < |remnant| ==> Slots(remnant[i].body, r) == 0
    ensures var closing := ClosingPart(EndingOpening(log, o, op, e), o, op, e);
            forall i :: 0 <= i < |closing| ==> Slots(closing[i].body, r) == 0
  {
    hide EndingOpening, ResultText;
  }

  lemma SettlementSlots(s: Sys, e: Ending, r: RequestId)
    requires MemoryDistinct(s) && Driving(s) && ChargesAwaited(s, e)
    ensures var n := (if e.assistant.Some? && e.assistant.value.request == r then 1 else 0)
                     + Slots(SettlementEntry(Current(s), Op(s), e).body, r);
            n <= 1 && (n > 0 ==> Awaiting(s, Current(s), r))
  {
    var op, facts := Op(s), CarriedFacts(e.carrier);
    FactSlotsSingle(facts, r);
    assert InFacts(facts, r) ==> InFacts(s.facts, r);
    if IsModelEffect(op.active) && InFacts(facts, op.active.value.request) {
      assert WitnessesRequest(facts, op.active.value.request);
    }
  }

  lemma SettleCharges(s: Sys, s': Sys, e: Ending)
    requires ChargedOnce(s) && Driving(s) && ChargesAwaited(s, e) && s'.facts == [] && !s'.frame.Rounding?
    requires s'.g == Settle(s.g, Current(s), e)
    ensures ChargedOnce(s')
  {
    hide ProducerCount, EndingLog, EndingEntries, ChargesAwaited, ChargedOnce, SettlementEntry, Slots;
    var o, op := Current(s), Op(s);
    EndingLogSplits(s.g.log, o, op, e);
    var es := EndingEntries(s.g.log, o, op, e);
    assert s'.g.log == s.g.log + es;
    MemoryOf(s);
    forall q, r
      ensures ProducerCount(es, q, r) <= 1
      ensures ProducerCount(es, q, r) > 0 ==> Awaiting(s, q, r)
    {
      EndingSlots(s.g.log, o, op, e, q, r);
      SettlementSlots(s, e, r);
    }
    StepCharges(s, s', es);
  }

  lemma FinishCharges(s: Sys, step: Step)
    requires Inv(s) && ChargedOnce(s) && IsFinish(step) && Next(s, step).Some?
    ensures ChargedOnce(Next(s, step).value)
  {
    hide Inv, ChargedOnce, EndingLog, FreshEntry, FreshProduced, Settle, ChargesAwaited;
    FinishSettles(s, step);
    MemoryOf(s);
    FinishAwaits(s, step);
    SettleCharges(s, Next(s, step).value, EndingOf(s, step));
  }

  lemma FinishAwaits(s: Sys, step: Step)
    requires Inv(s) && MemoryDistinct(s) && IsFinish(step) && Next(s, step).Some?
    ensures Driving(s) && (step.FinishModelStep? ==> IsModelEffect(Op(s).active))
    ensures ChargesAwaited(s, EndingOf(s, step)) && Next(s, step).value.facts == [] && !Next(s, step).value.frame.Rounding?
  {
    hide Inv, EndingLog, FreshEntry, FreshProduced, Settle, ChargesAwaited, CarriesFacts, MemoryDistinct, Registered,
         ProducesLive;
    FinishCarries(s, step);
    if s.frame == Lost {
      LostHoldsNothing(s);
    }
    FinishProduces(s, step);
    if IsModelEffect(Op(s).active) {
      ModelRegister(s);
    }
    EndingAwaits(s, EndingOf(s, step));
  }

  /** Only a live model effect produces a payload or a usage, and never both. */
  predicate ProducesLive(s: Sys, e: Ending)
    requires Driving(s)
  {
    && (e.assistant.Some? ==> e.usage.None?)
    && (e.assistant.Some? || e.usage.Some? ==> IsModelEffect(Op(s).active))
  }

  lemma FinishProduces(s: Sys, step: Step)
    requires IsFinish(step) && Next(s, step).Some? && (s.frame == Lost ==> s.facts == [])
    ensures Driving(s) && (step.FinishModelStep? ==> IsModelEffect(Op(s).active))
    ensures ProducesLive(s, EndingOf(s, step)) && Next(s, step).value.facts == [] && !Next(s, step).value.frame.Rounding?
  {
    hide EndingLog, FreshEntry, FreshProduced, Settle;
  }

  lemma LostHoldsNothing(s: Sys)
    requires Inv(s) && s.frame == Lost
    ensures s.facts == []
  {
    hide Accepted;
  }

  lemma EndingAwaits(s: Sys, e: Ending)
    requires Driving(s) && MemoryDistinct(s) && CarriesFacts(s, e) && ProducesLive(s, e)
    requires IsModelEffect(Op(s).active) ==> Registered(s)
    ensures ChargesAwaited(s, e)
  {
    var facts := CarriedFacts(e.carrier);
    assert facts == [] || facts == s.facts;
    assert e.assistant.Some? ==> ModelRequest(Op(s).active, e.assistant.value.request) && e.usage.None?;
    if IsModelEffect(Op(s).active) {
      var r := Op(s).active.value.request;
      if !InFacts(facts, r) {
        assert SettlementRequest(Op(s), e) == Some(r);
      } else {
        assert e.assistant.None? && e.usage.None?;
      }
    }
  }

  predicate Registered(s: Sys)
    requires Driving(s) && IsModelEffect(Op(s).active)
  {
    var r := Op(s).active.value.request;
    if Op(s).active.value.ConversationEffect? then
      && Op(s).request.Some? && Op(s).request.value.id == r
      && (s.frame != Lost ==> s.frame.Rounding? && s.frame.request == r)
    else s.frame != Lost ==> InFacts(s.facts, r)
  }

  /** A live model effect's request is the published one, or the newest waiting fact's. */
  lemma ModelRegister(s: Sys)
    requires Inv(s) && Driving(s) && IsModelEffect(Op(s).active)
    ensures Registered(s)
  {
    hide LogFits, LogConsistent, OperationsAgree, FactsFit, RoundLogOk, CompactQuiet;
    OnlyRunning(s.g, Current(s));
    assert EffectShape(Op(s), Op(s).active.value);
    if Op(s).active.value.MaintenanceEffect? && s.frame != Lost {
      assert s.facts[|s.facts| - 1].request == Op(s).active.value.request;
    }
  }

  // ---- Runs --------------------------------------------------------------------------------------

  lemma NextCharges(s: Sys, step: Step)
    requires Inv(s) && ChargedOnce(s) && Next(s, step).Some?
    ensures ChargedOnce(Next(s, step).value)
  {
    hide Inv, ChargedOnce, Next;
    if InMemory(step) {
      MemoryCharges(s, step);
    } else if IsIntent(step) {
      IntentCharges(s, step);
    } else if IsFinish(step) {
      FinishCharges(s, step);
    } else if step.Invoke? {
      InvokeCharges(s);
    } else if step.CheckpointStep? {
      CheckpointStepCharges(s, step);
    } else if step.ManualCheckpointStep? {
      ManualCheckpointCharges(s, step);
    } else if step.CommitModelStep? {
      NextIsCommit(s, step);
      ModelResultCharges(s, step.produced, step.continuation);
    } else if IsResult(step) {
      CallResultCharges(s, step);
    } else {
      AdmissionCharges(s, step);
    }
  }

  lemma InvokeCharges(s: Sys)
    requires ChargedOnce(s) && Next(s, Invoke).Some?
    ensures ChargedOnce(Next(s, Invoke).value)
  {
    hide ProducerCount;
  }

  /** In every run of the store, no model request is charged twice. */
  lemma {:induction false} EveryRunChargesOnce(moves: seq<Move>)
    requires Run(map[], moves).Some?
    ensures forall id :: id in Run(map[], moves).value ==> ChargedOnce(Run(map[], moves).value[id])
  {
    hide ChargedOnce, Next, Good;
    if |moves| > 0 {
      var n := |moves| - 1;
      EveryRunChargesOnce(moves[..n]);
      EveryRunIsGood(moves[..n]);
      MoveCharges(Run(map[], moves[..n]).value, moves[n]);
    }
  }

  lemma MoveCharges(store: Store, move: Move)
    requires forall id :: id in store ==> Good(store[id]) && ChargedOnce(store[id])
    requires Apply(store, move).Some?
    ensures forall id :: id in Apply(store, move).value ==> ChargedOnce(Apply(store, move).value[id])
  {
    hide ChargedOnce, Next, Good;
    match move
    case Create(id) => EmptyCharges();
    case Drive(id, step) =>
      GoodIsInv(store[id]);
      NextCharges(store[id], step);
    case ForkAt(source, id, n, rho, o, entry, text) =>
      var base := ForkedSession(store[source].g, n, rho);
      ForkIsGood(store[source], n, rho);
      GoodIsInv(base);
      ForkCharges(store[source].g, n, rho);
      AdmissionIsStep(base, o, entry, text);
      NextCharges(base, AdmitMessageStep(o, entry, User, text));
  }

  lemma EmptyCharges()
    ensures ChargedOnce(EmptySession())
  {
  }

  /** A copied prefix charges nothing. */
  lemma ForkCharges(g: Graph, n: nat, rho: EntryId -> EntryId)
    requires n <= |g.log|
    ensures ChargedOnce(ForkedSession(g, n, rho))
  {
    var s := ForkedSession(g, n, rho);
    forall o, r ensures ProducerCount(s.g.log, o, r) == 0 {
      CopiesUnowned(g.log[..n], rho);
      NoSlots(s.g.log, o, r);
    }
  }

  lemma {:induction false} CopiesUnowned(log: seq<Entry>, rho: EntryId -> EntryId)
    ensures forall i :: 0 <= i < |Copied(log, rho)| ==> Copied(log, rho)[i].owner.None?
  {
    if |log| > 0 {
      CopiesUnowned(log[..|log| - 1], rho);
    }
  }

  // ---- What it means for a reader -------------------------------------------------------------------

  lemma {:induction false} CountAtLeast(log: seq<Entry>, o: OpId, r: RequestId, i: int)
    requires 0 <= i < |log| && Owned(log[i], o)
    ensures ProducerCount(log, o, r) >= Slots(log[i].body, r)
  {
    if i < |log| - 1 {
      CountAtLeast(log[..|log| - 1], o, r, i);
    }
  }

  lemma CountBoth(log: seq<Entry>, o: OpId, r: RequestId, i: int, j: int)
    requires 0 <= i < j < |log| && Owned(log[i], o) && Owned(log[j], o)
    ensures ProducerCount(log, o, r) >= Slots(log[i].body, r) + Slots(log[j].body, r)
  {
    CountConcat(log[..j], log[j..], o, r);
    assert log[..j] + log[j..] == log;
    CountAtLeast(log[..j], o, r, i);
    CountAtLeast(log[j..], o, r, 0);
  }

  /** No two entries produce one request. */
  lemma ProducedByOne(s: Sys, o: OpId, r: RequestId, i: int, j: int)
    requires ChargedOnce(s) && 0 <= i < |s.g.log| && 0 <= j < |s.g.log| && Owned(s.g.log[i], o) && Owned(s.g.log[j], o)
    requires Produces(s.g.log[i].body, r) && Produces(s.g.log[j].body, r)
    ensures i == j && Slots(s.g.log[i].body, r) == 1
  {
    SlotsAreProducers(s.g.log[i].body, r);
    SlotsAreProducers(s.g.log[j].body, r);
    CountAtLeast(s.g.log, o, r, i);
    if i < j {
      CountBoth(s.g.log, o, r, i, j);
    } else if j < i {
      CountBoth(s.g.log, o, r, j, i);
    }
  }

  /** A known estimate of a settled Operation charges every model intent it committed exactly
      once, on one durable producer that reports its usage. */
  lemma KnownEstimateChargesOnce(s: Sys, o: OpId, rate: Rate, r: RequestId) returns (i: int)
    requires Costed(s) && ChargedOnce(s) && o in s.g.ops && s.g.ops[o].status != Running && (o, r) in s.intended
    requires OperationEstimate(s.g, o, rate).Some?
    ensures ProducerCount(s.g.log, o, r) == 1
    ensures 0 <= i < |s.g.log| && Owned(s.g.log[i], o) && Reports(s.g.log[i].body, r) && Slots(s.g.log[i].body, r) == 1
    ensures forall j :: 0 <= j < |s.g.log| && Owned(s.g.log[j], o) && Produces(s.g.log[j].body, r) ==> j == i
  {
    hide Costed, ChargedOnce, OperationEstimate, Slots, ProducerCount;
    KnownEstimateIsComplete(s, o, rate, r);
    i :| 0 <= i < |s.g.log| && Owned(s.g.log[i], o) && Reports(s.g.log[i].body, r);
    ProducedByOne(s, o, r, i, i);
    CountAtLeast(s.g.log, o, r, i);
    AtMostOneCharge(s, o, r);
    forall j | 0 <= j < |s.g.log| && Owned(s.g.log[j], o) && Produces(s.g.log[j].body, r) ensures j == i {
      ProducedByOne(s, o, r, i, j);
    }
  }

  lemma AtMostOneCharge(s: Sys, o: OpId, r: RequestId)
    requires ChargedOnce(s)
    ensures ProducerCount(s.g.log, o, r) <= 1
  {
  }
}
