/** Approximate cost (harness/estimate.go): unknown is contagious, and a known estimate
    of a settled Operation has accounted every model intent it ever committed. */
module Estimate {
  import opened Records
  import opened Validator
  import opened Transactions
  import opened Growth
  import opened Settling
  import opened Commits
  import opened View
  import opened Driver
  import opened Discipline
  import opened Shape
  import opened Invocations
  import opened Runs
  import opened Tallies

  // ---- The estimate -----------------------------------------------------------------

  /** A running sum; `None` once any contribution is unknown. */
  type Total = Option<real>

  /** The captured rates of one Operation: the price of a model's usage, if a rate was captured. */
  type Rate = (ModelRef, Usage) -> Option<real>

  function Add(t: Total, value: Option<real>): Total {
    if t.None? || value.None? then None else Some(t.value + value.value)
  }

  /** The price of one producer: unknown without a reported usage or a captured rate. */
  function Price(rate: Rate, m: ModelRef, u: Option<Usage>): Option<real> {
    if u.None? then None else rate(m, u.value)
  }

  function AddFacts(t: Total, rate: Rate, facts: seq<Fact>): Total {
    if |facts| == 0 then t
    else Add(AddFacts(t, rate, facts[..|facts| - 1]), Price(rate, facts[|facts| - 1].model, facts[|facts| - 1].usage))
  }

  function AddEntry(t: Total, rate: Rate, b: Body): Total {
    match b
    case Assistant(_, _, source, u, _, _, _) => Add(t, Price(rate, source, u))
    case Settled(s) => AddFacts(if s.producer.Some? then Add(t, Price(rate, s.producer.value, s.usage)) else t, rate, s.facts)
    case Checkpoint(_, _, facts, _, _) => AddFacts(t, rate, facts)
    case _ => t
  }

  function Priced(log: seq<Entry>, o: OpId, rate: Rate): Total {
    if |log| == 0 then Some(0.0)
    else
      var rest := Priced(log[..|log| - 1], o, rate);
      if Owned(log[|log| - 1], o) then AddEntry(rest, rate, log[|log| - 1].body) else rest
  }

  /** The estimate of one Operation: the marker of unrecorded maintenance forces unknown. */
  function OperationEstimate(g: Graph, o: OpId, rate: Rate): Total {
    if o in g.ops && g.ops[o].unreportedMaintenance then None else Priced(g.log, o, rate)
  }

  /** Every entry with an owner, priced under that Operation's own capture. */
  function PricedAll(log: seq<Entry>, rates: OpId -> Rate): Total {
    if |log| == 0 then Some(0.0)
    else
      var rest, last := PricedAll(log[..|log| - 1], rates), log[|log| - 1];
      if last.owner.Some? then AddEntry(rest, rates(last.owner.value), last.body) else rest
  }

  /** The Session's estimate over the same entries: one marked Operation makes it unknown. */
  function SessionEstimate(g: Graph, rates: OpId -> Rate): Total {
    if exists o :: o in g.ops && g.ops[o].unreportedMaintenance then None else PricedAll(g.log, rates)
  }

  // ---- What the estimate is ------------------------------------------------------------

  /** The producers' prices, in order: none where nothing was reported, or no rate captured. */
  function PricesOf(ps: seq<Producer>, rate: Rate): seq<Option<real>> {
    seq(|ps|, k requires 0 <= k < |ps| => if ps[k].usage.Some? then rate(ps[k].model, ps[k].usage.value) else None)
  }

  function SumPrices(prices: seq<Option<real>>): real {
    if |prices| == 0 then 0.0
    else
      var last := prices[|prices| - 1];
      SumPrices(prices[..|prices| - 1]) + if last.Some? then last.value else 0.0
  }

  /** The prices of everything the Operations of a Session produced. */
  function SessionPrices(log: seq<Entry>, rates: OpId -> Rate): seq<Option<real>> {
    if |log| == 0 then []
    else
      var last := log[|log| - 1];
      SessionPrices(log[..|log| - 1], rates)
      + if last.owner.Some? then PricesOf(ProducersOf(last.body), rates(last.owner.value)) else []
  }

  /** The total is unknown exactly when some price is, and otherwise their sum. */
  ghost predicate Totalled(t: Total, prices: seq<Option<real>>) {
    (t.None? <==> None in prices) && (t.Some? ==> t.value == SumPrices(prices))
  }

  lemma OneTotalled(t: Total, prices: seq<Option<real>>, price: Option<real>)
    requires Totalled(t, prices)
    ensures Totalled(Add(t, price), prices + [price])
  {
    var next := prices + [price];
    assert next[..|prices|] == prices && next[|prices|] == price;
    assert None in next <==> None in prices || price.None?;
  }

  lemma {:induction false} FactsTotalled(t: Total, prices: seq<Option<real>>, facts: seq<Fact>, rate: Rate)
    requires Totalled(t, prices)
    ensures Totalled(AddFacts(t, rate, facts), prices + PricesOf(FactProducers(facts), rate))
  {
    hide Totalled, Add;
    if |facts| == 0 {
      assert prices + PricesOf(FactProducers(facts), rate) == prices;
    } else {
      var n := |facts| - 1;
      FactsTotalled(t, prices, facts[..n], rate);
      var before := prices + PricesOf(FactProducers(facts[..n]), rate);
      var price := Price(rate, facts[n].model, facts[n].usage);
      OneTotalled(AddFacts(t, rate, facts[..n]), before, price);
      assert prices + PricesOf(FactProducers(facts), rate) == before + [price];
    }
  }

  lemma EntryTotalled(t: Total, prices: seq<Option<real>>, b: Body, rate: Rate)
    requires Totalled(t, prices)
    ensures Totalled(AddEntry(t, rate, b), prices + PricesOf(ProducersOf(b), rate))
  {
    hide Totalled, Add, AddFacts, FactProducers;
    match b
    case Assistant(_, _, source, u, _, _, _) =>
      OneTotalled(t, prices, Price(rate, source, u));
      assert PricesOf(ProducersOf(b), rate) == [Price(rate, source, u)];
    case Settled(s) => SettlementTotalled(t, prices, s, rate);
    case Checkpoint(_, _, facts, _, _) => FactsTotalled(t, prices, facts, rate);
    case _ => assert prices + PricesOf(ProducersOf(b), rate) == prices;
  }

  lemma SettlementTotalled(t: Total, prices: seq<Option<real>>, s: Settlement, rate: Rate)
    requires Totalled(t, prices)
    ensures Totalled(AddEntry(t, rate, Settled(s)), prices + PricesOf(ProducersOf(Settled(s)), rate))
  {
    hide Totalled, Add, AddFacts, FactProducers;
    if s.producer.Some? {
      var price := Price(rate, s.producer.value, s.usage);
      OneTotalled(t, prices, price);
      FactsTotalled(Add(t, price), prices + [price], s.facts, rate);
      assert prices + PricesOf(ProducersOf(Settled(s)), rate) == prices + [price] + PricesOf(FactProducers(s.facts), rate);
    } else {
      FactsTotalled(t, prices, s.facts, rate);
      assert ProducersOf(Settled(s)) == FactProducers(s.facts);
    }
  }

  lemma {:induction false} LogTotalled(log: seq<Entry>, o: OpId, rate: Rate)
    ensures Totalled(Priced(log, o, rate), PricesOf(Producers(log, Some(o)), rate))
  {
    hide AddEntry, ProducersOf;
    if |log| > 0 {
      hide Totalled;
      var n := |log| - 1;
      LogTotalled(log[..n], o, rate);
      EntryTotalled(Priced(log[..n], o, rate), PricesOf(Producers(log[..n], Some(o)), rate), log[n].body, rate);
      if Owned(log[n], o) {
        assert PricesOf(Producers(log, Some(o)), rate) ==
               PricesOf(Producers(log[..n], Some(o)), rate) + PricesOf(ProducersOf(log[n].body), rate);
      } else {
        assert Producers(log, Some(o)) == Producers(log[..n], Some(o));
      }
    }
  }

  lemma {:induction false} AllTotalled(log: seq<Entry>, rates: OpId -> Rate)
    ensures Totalled(PricedAll(log, rates), SessionPrices(log, rates))
  {
    hide AddEntry, ProducersOf, PricesOf;
    if |log| > 0 {
      hide Totalled;
      var n := |log| - 1;
      AllTotalled(log[..n], rates);
      if log[n].owner.Some? {
        EntryTotalled(PricedAll(log[..n], rates), SessionPrices(log[..n], rates), log[n].body, rates(log[n].owner.value));
      } else {
        assert SessionPrices(log, rates) == SessionPrices(log[..n], rates);
      }
    }
  }

  /** An Operation's estimate is known exactly when its marker is clear and every durable
      producer has a price, and then it is the sum of those prices. */
  lemma EstimateIsSum(g: Graph, o: OpId, rate: Rate)
    requires o in g.ops
    ensures var prices := PricesOf(Producers(g.log, Some(o)), rate);
            && (OperationEstimate(g, o, rate).Some? <==> !g.ops[o].unreportedMaintenance && None !in prices)
            && (OperationEstimate(g, o, rate).Some? ==> OperationEstimate(g, o, rate).value == SumPrices(prices))
  {
    hide SumPrices, Priced, Producers, PricesOf;
    LogTotalled(g.log, o, rate);
  }

  /** The Session's estimate is known exactly when every marker is clear and everything its
      Operations produced has a price, and then it is the sum of those prices. */
  lemma SessionEstimateIsSum(g: Graph, rates: OpId -> Rate)
    ensures var prices := SessionPrices(g.log, rates);
            && (SessionEstimate(g, rates).Some? <==>
                  None !in prices && forall o :: o in g.ops ==> !g.ops[o].unreportedMaintenance)
            && (SessionEstimate(g, rates).Some? ==> SessionEstimate(g, rates).value == SumPrices(prices))
  {
    hide SumPrices, PricedAll, SessionPrices;
    AllTotalled(g.log, rates);
  }

  /** A known Session estimate has a known one for each of its Operations. */
  lemma {:induction false} KnownEverywhere(log: seq<Entry>, o: OpId, rates: OpId -> Rate)
    requires PricedAll(log, rates).Some?
    ensures Priced(log, o, rates(o)).Some?
  {
    if |log| > 0 {
      var n := |log| - 1;
      if log[n].owner.Some? {
        AddedIsKnown(PricedAll(log[..n], rates), rates(log[n].owner.value), log[n].body);
      }
      KnownEverywhere(log[..n], o, rates);
      if Owned(log[n], o) {
        KnownAdds(PricedAll(log[..n], rates), Priced(log[..n], o, rates(o)), rates(o), log[n].body);
      }
    }
  }

  lemma AddedIsKnown(t: Total, rate: Rate, b: Body)
    requires AddEntry(t, rate, b).Some?
    ensures t.Some?
  {
    if b.Settled? {
      FactsKnown(if b.settlement.producer.Some? then Add(t, Price(rate, b.settlement.producer.value, b.settlement.usage)) else t,
                 rate, b.settlement.facts);
    } else if b.Checkpoint? {
      FactsKnown(t, rate, b.facts);
    }
  }

  /** What is unknown of an entry does not depend on the sum it is added to. */
  lemma KnownAdds(t: Total, t': Total, rate: Rate, b: Body)
    requires AddEntry(t, rate, b).Some? && t'.Some?
    ensures AddEntry(t', rate, b).Some?
  {
    AddedIsKnown(t, rate, b);
    if b.Settled? {
      var s := b.settlement;
      if s.producer.Some? {
        var price := Price(rate, s.producer.value, s.usage);
        FactsKnown(Add(t, price), rate, s.facts);
        KnownFactsAdd(Add(t, price), Add(t', price), rate, s.facts);
      } else {
        KnownFactsAdd(t, t', rate, s.facts);
      }
    } else if b.Checkpoint? {
      KnownFactsAdd(t, t', rate, b.facts);
    }
  }

  lemma {:induction false} KnownFactsAdd(t: Total, t': Total, rate: Rate, facts: seq<Fact>)
    requires AddFacts(t, rate, facts).Some? && t'.Some?
    ensures AddFacts(t', rate, facts).Some?
  {
    if |facts| > 0 {
      KnownFactsAdd(t, t', rate, facts[..|facts| - 1]);
    }
  }

  class CostEstimate {
    var sum: real
    var unknown: bool

    function Value(): Total
      reads this
    {
      if unknown then None else Some(sum)
    }

    constructor (start: Total)
      ensures Value() == start
    {
      sum, unknown := if start.Some? then start.value else 0.0, start.None?;
    }

    method AddValue(value: Option<real>)
      modifies this
      ensures unknown <==> old(unknown) || value.None?
      ensures !unknown ==> sum == old(sum) + value.value
      ensures Value() == Add(old(Value()), value)
    {
      if value.None? {
        unknown := true;
        return;
      }
      if !unknown {
        sum := sum + value.value;
      }
    }

    method AddFactList(rate: Rate, facts: seq<Fact>)
      modifies this
      ensures Value() == AddFacts(old(Value()), rate, facts)
    {
      var k := 0;
      while k < |facts|
        invariant 0 <= k <= |facts| && Value() == AddFacts(old(Value()), rate, facts[..k])
      {
        assert facts[..k + 1][..k] == facts[..k];
        AddValue(Price(rate, facts[k].model, facts[k].usage));
        k := k + 1;
      }
      assert facts[..k] == facts;
    }
  }

  /** One walk over the committed entries prices each owned producer under its Operation's
      capture, for that Operation and for the Session at once; the markers come last. */
  method EstimateGraphCosts(g: Graph, rates: OpId -> Rate) returns (byOperation: map<OpId, Total>, session: Total)
    ensures forall o :: o in byOperation ==> byOperation[o] == OperationEstimate(g, o, rates(o))
    ensures forall o :: o !in byOperation ==> OperationEstimate(g, o, rates(o)) == Some(0.0)
    ensures session == SessionEstimate(g, rates)
  {
    hide AddEntry;
    byOperation := map[];
    session := Some(0.0);
    var i := 0;
    while i < |g.log|
      invariant 0 <= i <= |g.log| && session == PricedAll(g.log[..i], rates)
      invariant forall o :: o in byOperation ==> byOperation[o] == Priced(g.log[..i], o, rates(o))
      invariant forall o :: o !in byOperation ==> Priced(g.log[..i], o, rates(o)) == Some(0.0)
    {
      assert g.log[..i + 1][..i] == g.log[..i];
      var e := g.log[i];
      if e.owner.Some? {
        var o := e.owner.value;
        var estimate := if o in byOperation then byOperation[o] else Some(0.0);
        var operationTotal, sessionTotal := ProduceEntry(estimate, session, e.body, rates(o));
        byOperation, session := byOperation[o := operationTotal], sessionTotal;
      }
      i := i + 1;
    }
    assert g.log[..i] == g.log;
    byOperation, session := MarkUnreported(g, rates, byOperation, session);
  }

  /** The producers of one entry, added to both sums. */
  method ProduceEntry(operation: Total, session: Total, b: Body, rate: Rate) returns (operation': Total, session': Total)
    ensures operation' == AddEntry(operation, rate, b) && session' == AddEntry(session, rate, b)
  {
    var mine := new CostEstimate(operation);
    var all := new CostEstimate(session);
    match b {
      case Assistant(_, _, source, u, _, _, _) =>
        mine.AddValue(Price(rate, source, u));
        all.AddValue(Price(rate, source, u));
      case Settled(s) =>
        if s.producer.Some? {
          mine.AddValue(Price(rate, s.producer.value, s.usage));
          all.AddValue(Price(rate, s.producer.value, s.usage));
        }
        mine.AddFactList(rate, s.facts);
        all.AddFactList(rate, s.facts);
      case Checkpoint(_, _, facts, _, _) =>
        mine.AddFactList(rate, facts);
        all.AddFactList(rate, facts);
      case _ =>
    }
    operation', session' := mine.Value(), all.Value();
  }

  /** A marked Operation's estimate, and with it the Session's, becomes unknown. */
  method MarkUnreported(g: Graph, rates: OpId -> Rate, priced: map<OpId, Total>, total: Total)
    returns (byOperation: map<OpId, Total>, session: Total)
    requires forall o :: o in priced ==> priced[o] == Priced(g.log, o, rates(o))
    requires forall o :: o !in priced ==> Priced(g.log, o, rates(o)) == Some(0.0)
    requires total == PricedAll(g.log, rates)
    ensures forall o :: o in byOperation ==> byOperation[o] == OperationEstimate(g, o, rates(o))
    ensures forall o :: o !in byOperation ==> OperationEstimate(g, o, rates(o)) == Some(0.0)
    ensures session == SessionEstimate(g, rates)
  {
    byOperation, session := priced, total;
    var left := g.ops.Keys;
    while left != {}
      invariant left <= g.ops.Keys
      invariant forall o :: o in byOperation ==>
                  byOperation[o] == if o in left then Priced(g.log, o, rates(o)) else OperationEstimate(g, o, rates(o))
      invariant forall o :: o !in byOperation ==>
                  Priced(g.log, o, rates(o)) == Some(0.0) && (o in g.ops && o !in left ==> !g.ops[o].unreportedMaintenance)
      invariant session == if exists o :: o in g.ops && o !in left && g.ops[o].unreportedMaintenance then None else total
      decreases |left|
    {
      var o :| o in left;
      left := left - {o};
      if g.ops[o].unreportedMaintenance {
        byOperation, session := byOperation[o := None], None;
      }
    }
  }

  // ---- Producers -----------------------------------------------------------------------

  /** The entry is a durable producer of this request. */
  predicate Produces(b: Body, r: RequestId) {
    || (b.Assistant? && b.request == r)
    || (b.Settled? && b.settlement.producer.Some? && b.settlement.request == Some(r))
    || exists k :: 0 <= k < |FactsOf(b)| && FactsOf(b)[k].request == r
  }

  /** A durable producer of this request reports its usage. */
  predicate Reports(b: Body, r: RequestId) {
    || (b.Assistant? && b.request == r && b.usage.Some?)
    || (b.Settled? && b.settlement.producer.Some? && b.settlement.request == Some(r) && b.settlement.usage.Some?)
    || exists k :: 0 <= k < |FactsOf(b)| && FactsOf(b)[k].request == r && FactsOf(b)[k].usage.Some?
  }

  ghost predicate HasProducer(log: seq<Entry>, o: OpId, r: RequestId) {
    exists i :: 0 <= i < |log| && Owned(log[i], o) && Produces(log[i].body, r)
  }

  lemma {:induction false} FactsKnown(t: Total, rate: Rate, facts: seq<Fact>)
    requires AddFacts(t, rate, facts).Some?
    ensures t.Some? && forall k :: 0 <= k < |facts| ==> facts[k].usage.Some?
  {
    if |facts| > 0 {
      FactsKnown(t, rate, facts[..|facts| - 1]);
    }
  }

  lemma EntryKnown(t: Total, rate: Rate, b: Body, r: RequestId)
    requires AddEntry(t, rate, b).Some?
    ensures t.Some? && (Produces(b, r) ==> Reports(b, r))
  {
    if b.Settled? {
      FactsKnown(if b.settlement.producer.Some? then Add(t, Price(rate, b.settlement.producer.value, b.settlement.usage)) else t,
                 rate, b.settlement.facts);
    } else if b.Checkpoint? {
      FactsKnown(t, rate, b.facts);
    }
  }

  /** Unknown is contagious: under a known total every durable producer reports its usage. */
  lemma {:induction false} KnownReports(log: seq<Entry>, o: OpId, rate: Rate, r: RequestId)
    requires Priced(log, o, rate).Some?
    ensures forall i :: 0 <= i < |log| && Owned(log[i], o) && Produces(log[i].body, r) ==> Reports(log[i].body, r)
  {
    if |log| > 0 {
      var n := |log| - 1;
      if Owned(log[n], o) {
        EntryKnown(Priced(log[..n], o, rate), rate, log[n].body, r);
      }
      KnownReports(log[..n], o, rate, r);
      assert forall i :: 0 <= i < n ==> log[..n][i] == log[i];
    }
  }

  // ---- Every committed intent is accounted ------------------------------------------------

  predicate InFacts(facts: seq<Fact>, r: RequestId) {
    exists k :: 0 <= k < |facts| && facts[k].request == r
  }

  /** The driver still runs this Operation with its memory intact. */
  predicate InHand(s: Sys, o: OpId) {
    Driving(s) && Current(s) == o && s.frame != Lost
  }

  /** The Operation's committed model intent has no result yet. */
  predicate ModelRequest(active: Option<Effect>, r: RequestId) {
    IsModelEffect(active) && active.value.request == r
  }

  predicate Underway(s: Sys, o: OpId, r: RequestId) {
    Driving(s) && Current(s) == o && ModelRequest(Op(s).active, r)
  }

  /** An intended request has a durable producer, or its effect is active, or its fact waits
      under the marker, or the marker stands for what process loss dropped. */
  ghost predicate Kept(s: Sys, o: OpId, r: RequestId) {
    && o in s.g.ops
    && (|| HasProducer(s.g.log, o, r)
        || Underway(s, o, r)
        || (s.g.ops[o].unreportedMaintenance && (InHand(s, o) ==> InFacts(s.facts, r))))
  }

  ghost predicate Costed(s: Sys) {
    forall o, r :: (o, r) in s.intended ==> Kept(s, o, r)
  }

  lemma ProducedGrows(log: seq<Entry>, es: seq<Entry>, o: OpId, r: RequestId)
    requires HasProducer(log, o, r)
    ensures HasProducer(log + es, o, r)
  {
    var i :| 0 <= i < |log| && Owned(log[i], o) && Produces(log[i].body, r);
    assert (log + es)[i] == log[i];
  }

  lemma ProducedByEntry(log: seq<Entry>, es: seq<Entry>, k: int, o: OpId, r: RequestId)
    requires 0 <= k < |es| && Owned(es[k], o) && Produces(es[k].body, r)
    ensures HasProducer(log + es, o, r)
  {
    assert (log + es)[|log| + k] == es[k];
  }

  // ---- Memory and intents -------------------------------------------------------------------

  lemma MemoryCosted(s: Sys, step: Step)
    requires Costed(s) && InMemory(step) && Next(s, step).Some?
    ensures Costed(Next(s, step).value)
  {
    hide FreshEntry, FreshRequest, HasProducer;
    var s' := Next(s, step).value;
    assert s'.g == s.g && s'.intended == s.intended;
    forall o, r | (o, r) in s'.intended ensures Kept(s', o, r) {
      assert Kept(s, o, r);
    }
  }

  lemma IntentCosted(s: Sys, step: Step)
    requires Inv(s) && Costed(s) && IsIntent(step) && !step.CommitMaintenance? && Next(s, step).Some?
    ensures Costed(Next(s, step).value)
  {
    hide Inv, FreshEntry, FreshRequest, HasProducer, RoundEvidence;
    var s' := Next(s, step).value;
    assert s'.g.log == s.g.log;
    assert forall k :: 0 <= k < |s.facts| ==> s'.facts[k] == s.facts[k];
    forall o, r | (o, r) in s'.intended ensures Kept(s', o, r) {
      if (o, r) in s.intended {
        assert Kept(s, o, r);
      } else {
        assert Underway(s', o, r);
      }
    }
  }

  /** A completed maintenance effect leaves its fact waiting, under the marker. */
  lemma MaintenanceCosted(s: Sys, usage: Option<Usage>)
    requires Inv(s) && Costed(s) && CommitMaintenanceNext(s, usage).Some?
    ensures Costed(CommitMaintenanceNext(s, usage).value)
  {
    hide Accepted, FactsFit, RoundLogOk, CompactQuiet, HasProducer;
    var s' := CommitMaintenanceNext(s, usage).value;
    assert s'.g.log == s.g.log && |s'.facts| == |s.facts|;
    assert forall k :: 0 <= k < |s.facts| ==> s'.facts[k].request == s.facts[k].request;
    forall o, r | (o, r) in s'.intended ensures Kept(s', o, r) {
      assert Kept(s, o, r);
      if o == Current(s) && Underway(s, o, r) {
        assert s'.facts[|s.facts| - 1].request == r;
      }
    }
  }

  lemma InvokeCosted(s: Sys)
    requires Costed(s) && InvokeNext(s).Some?
    ensures Costed(InvokeNext(s).value)
  {
    hide HasProducer;
    var s' := InvokeNext(s).value;
    forall o, r | (o, r) in s'.intended ensures Kept(s', o, r) {
      assert Kept(s, o, r);
    }
  }

  /** The history misses no intent: a live model effect and every dispatched request are in it. */
  ghost predicate IntentsRecorded(s: Sys) {
    && (forall o: OpId, r: RequestId :: Underway(s, o, r) ==> (o, r) in s.intended)
    && (forall o: OpId, r: RequestId :: Requested(o, r) in s.invoked ==> (o, r) in s.intended)
  }

  /** A step commits model intents only where it records them, and forgets none. */
  lemma NextRecords(s: Sys, step: Step)
    requires IntentsRecorded(s) && Next(s, step).Some?
    ensures IntentsRecorded(Next(s, step).value) && s.intended <= Next(s, step).value.intended
  {
    hide IntentsRecorded, Next;
    if InMemory(step) {
      MemoryRecords(s, step);
    } else if IsIntent(step) {
      IntentRecords(s, step);
    } else if IsFinish(step) {
      FinishRecords(s, step);
    } else if step.CheckpointStep? || step.ManualCheckpointStep? {
      CheckpointRecords(s, step);
    } else if IsResult(step) {
      ResultRecords(s, step);
    } else if step.Invoke? {
      InvokeRecords(s, step);
    } else {
      AdmissionRecords(s, step);
    }
  }

  lemma MemoryRecords(s: Sys, step: Step)
    requires IntentsRecorded(s) && InMemory(step) && Next(s, step).Some?
    ensures IntentsRecorded(Next(s, step).value) && s.intended <= Next(s, step).value.intended
  {
    hide FreshEntry, FreshRequest;
    assert Next(s, step).value.g == s.g && Next(s, step).value.invoked == s.invoked;
  }

  lemma IntentRecords(s: Sys, step: Step)
    requires IntentsRecorded(s) && IsIntent(step) && Next(s, step).Some?
    ensures IntentsRecorded(Next(s, step).value) && s.intended <= Next(s, step).value.intended
  {
    hide IntentsRecorded, Next;
    if step.BeginModelStep? {
      BeginModelRecords(s, step.result, step.model);
    } else if step.BeginMaintenanceStep? {
      BeginMaintenanceRecords(s, step.result, step.producer, step.model, step.committed);
    } else {
      OtherIntentRecords(s, step);
    }
    IntentIsBegin(s, step);
  }

  lemma IntentIsBegin(s: Sys, step: Step)
    ensures step.BeginModelStep? ==> Next(s, step) == BeginModelNext(s, step.result, step.model)
    ensures step.BeginMaintenanceStep? ==> Next(s, step) == BeginMaintenanceNext(s, step.result, step.producer, step.model, step.committed)
  {
    hide AdmitMessageNext, AdmitCompactNext, OpenRoundNext, PureRequestHookNext, StopRoundNext, BeginRequestHookNext,
      CommitRequestHookNext, OpenManualNext, BeginMaintenanceNext, CommitMaintenanceNext, CheckpointNext,
      ManualCheckpointNext, ManualNoneNext, BeginModelNext, CommitModelNext, FinishModelNext, FinishMaintenanceNext,
      FinishQuietNext, OpenChainNext, PureCallHookNext, BeginCallHookNext, CommitCallHookNext, SettleCallNext,
      BeginToolNext, InvokeNext, CommitToolNext, CompletionNext, LifecycleNext, CrashNext, RecoverNext, RestartNext;
  }

  lemma BeginModelRecords(s: Sys, result: EntryId, m: ModelRef)
    requires IntentsRecorded(s)
    ensures var s' := BeginModelNext(s, result, m);
            s'.Some? ==> IntentsRecorded(s'.value) && s.intended <= s'.value.intended
  {
    hide FreshEntry, RoundEvidence;
  }

  lemma BeginMaintenanceRecords(s: Sys, result: EntryId, producer: RequestId, m: ModelRef, committed: bool)
    requires IntentsRecorded(s)
    ensures var s' := BeginMaintenanceNext(s, result, producer, m, committed);
            s'.Some? ==> IntentsRecorded(s'.value) && s.intended <= s'.value.intended
  {
    hide FreshEntry, FreshRequest;
  }

  lemma OtherIntentRecords(s: Sys, step: Step)
    requires IntentsRecorded(s) && IsIntent(step) && !step.BeginModelStep? && !step.BeginMaintenanceStep? && Next(s, step).Some?
    ensures IntentsRecorded(Next(s, step).value) && s.intended <= Next(s, step).value.intended
  {
    hide FreshEntry, RoundEvidence, Contributed, IntentsRecorded;
    NoModelRecords(s, Next(s, step).value);
  }

  lemma NoModelRecords(s: Sys, s': Sys)
    requires IntentsRecorded(s) && s'.invoked == s.invoked && s'.intended == s.intended
    requires Driving(s') ==> !IsModelEffect(Op(s').active)
    ensures IntentsRecorded(s')
  {
  }

  lemma FinishRecords(s: Sys, step: Step)
    requires IntentsRecorded(s) && IsFinish(step) && Next(s, step).Some?
    ensures IntentsRecorded(Next(s, step).value) && s.intended <= Next(s, step).value.intended
  {
    hide FreshEntry, FreshProduced, EndingLog, EndingUsage, SettlementIdentity;
    assert Next(s, step).value.invoked == s.invoked && Next(s, step).value.g.session.current.None?;
  }

  lemma CheckpointRecords(s: Sys, step: Step)
    requires IntentsRecorded(s) && (step.CheckpointStep? || step.ManualCheckpointStep?) && Next(s, step).Some?
    ensures IntentsRecorded(Next(s, step).value) && s.intended <= Next(s, step).value.intended
  {
    hide FreshEntry, EndingLog, EndingUsage, ProposalValid, RebuiltPaired, RebuiltBoundary, ChargeFacts;
    assert Next(s, step).value.invoked == s.invoked;
  }

  lemma ResultRecords(s: Sys, step: Step)
    requires IntentsRecorded(s) && IsResult(step) && Next(s, step).Some?
    ensures IntentsRecorded(Next(s, step).value) && s.intended <= Next(s, step).value.intended
  {
    hide Next, IntentsRecorded;
    if step.CommitModelStep? {
      NextIsCommit(s, step);
      ModelResultRecords(s, step.produced, step.continuation);
    } else {
      CallResultRecords(s, step);
    }
  }

  lemma SameRegistersRecord(s: Sys, s': Sys)
    requires IntentsRecorded(s) && s'.invoked == s.invoked && s'.intended == s.intended
    requires s'.g.ops == s.g.ops && s'.g.session.current == s.g.session.current
    ensures IntentsRecorded(s')
  {
    assert forall o: OpId, r: RequestId :: Underway(s', o, r) ==> Underway(s, o, r);
  }

  lemma ModelResultRecords(s: Sys, a: Option<Produced>, signal: Option<EntryId>)
    requires IntentsRecorded(s) && CommitModelNext(s, a, signal).Some?
    ensures var s' := CommitModelNext(s, a, signal).value; IntentsRecorded(s') && s'.intended == s.intended
  {
    hide FreshProduced, FreshBeside, ChargeProduced, CallsPending, IntentsRecorded;
    NoModelRecords(s, CommitModelNext(s, a, signal).value);
  }

  lemma CallResultRecords(s: Sys, step: Step)
    requires IntentsRecorded(s) && IsResult(step) && !step.CommitModelStep? && Next(s, step).Some?
    ensures IntentsRecorded(Next(s, step).value) && Next(s, step).value.intended == s.intended
  {
    hide FreshEntry, WithoutIndex, Contributed, OutcomeFollows, IntentsRecorded;
    NoModelRecords(s, Next(s, step).value);
  }

  lemma InvokeRecords(s: Sys, step: Step)
    requires IntentsRecorded(s) && step.Invoke? && Next(s, step).Some?
    ensures IntentsRecorded(Next(s, step).value) && s.intended <= Next(s, step).value.intended
  {
    hide FreshEntry;
    assert Next(s, step).value.g == s.g;
  }

  lemma AdmissionRecords(s: Sys, step: Step)
    requires IntentsRecorded(s) && Next(s, step).Some?
    requires step.AdmitMessageStep? || step.AdmitCompactStep? || step.CompletionStep? || step.LifecycleStep?
    ensures IntentsRecorded(Next(s, step).value) && s.intended <= Next(s, step).value.intended
  {
    hide FreshEntry, IntentsRecorded;
    var s' := Next(s, step).value;
    if step.AdmitMessageStep? || step.AdmitCompactStep? {
      NoModelRecords(s, s');
    } else {
      SameRegistersRecord(s, s');
    }
  }

  // ---- Results -----------------------------------------------------------------------------------

  /** Results that are not a model's leave every request as it was. */
  lemma CallResultCosted(s: Sys, step: Step)
    requires Costed(s) && IsResult(step) && !step.CommitModelStep? && Next(s, step).Some?
    ensures Costed(Next(s, step).value)
  {
    hide HasProducer, Reconciles, FreshEntry, OutcomeFollows, Contributed, WithoutIndex, InFacts;
    var s' := Next(s, step).value;
    var e := s'.g.log[|s.g.log|];
    assert s'.g.log == s.g.log + [e] && s'.intended == s.intended && s'.facts == s.facts;
    forall o, r | (o, r) in s'.intended ensures Kept(s', o, r) {
      assert Kept(s, o, r);
      if HasProducer(s.g.log, o, r) {
        ProducedGrows(s.g.log, [e], o, r);
      }
    }
  }

  lemma ModelResultCosted(s: Sys, a: Produced, signal: Option<EntryId>)
    requires Costed(s) && CommitModelNext(s, Some(a), signal).Some?
    ensures Costed(CommitModelNext(s, Some(a), signal).value)
  {
    hide HasProducer, FreshProduced, FreshBeside, ChargeProduced;
    var s' := CommitModelNext(s, Some(a), signal).value;
    var es := ModelResultEntries(Current(s), Some(a), signal);
    assert s'.g.log == s.g.log + es && s'.intended == s.intended && s'.facts == s.facts;
    forall o, r | (o, r) in s'.intended ensures Kept(s', o, r) {
      assert Kept(s, o, r);
      if HasProducer(s.g.log, o, r) {
        ProducedGrows(s.g.log, es, o, r);
      } else if Underway(s, o, r) {
        ProducedByEntry(s.g.log, es, 0, o, r);
      }
    }
  }

  // ---- Settlements ----------------------------------------------------------------------------

  /** The settlement entry closes a settled Operation's transaction. */
  lemma SettlementLast(log: seq<Entry>, o: OpId, op: Operation, e: Ending)
    ensures var es := EndingEntries(log, o, op, e); |es| > 0 && es[|es| - 1] == SettlementEntry(o, op, e)
  {
  }

  lemma PayloadFirst(log: seq<Entry>, o: OpId, op: Operation, e: Ending)
    requires e.assistant.Some?
    ensures var es := EndingEntries(log, o, op, e); |es| > 0 && es[0] == AssistantEntry(o, e.assistant.value)
  {
  }

  /** The live model request of a settled Operation is produced by the settlement, or by
      the payload it preserves, or by a fact it carries. */
  lemma LiveModelProduced(s: Sys, e: Ending, r: RequestId)
    requires Inv(s) && Driving(s) && ModelRequest(Op(s).active, r)
    requires e.assistant.Some? ==> e.assistant.value.request == r
    requires Op(s).active.value.ConversationEffect? ==> !e.maintenance
    requires Op(s).active.value.MaintenanceEffect? && e.carrier.Some? ==> InFacts(CarriedFacts(e.carrier), r)
    requires Op(s).active.value.MaintenanceEffect? ==> e.assistant.None? && e.usage.None?
    ensures HasProducer(s.g.log + EndingEntries(s.g.log, Current(s), Op(s), e), Current(s), r)
  {
    hide LogFits, LogConsistent, OperationsAgree, FrameOk, EndingEntries, HasProducer;
    var o, op := Current(s), Op(s);
    var es := EndingEntries(s.g.log, o, op, e);
    OnlyRunning(s.g, o);
    assert EffectShape(op, op.active.value);
    SettlementLast(s.g.log, o, op, e);
    var x := SettlementEntry(o, op, e);
    assert FactsOf(x.body) == CarriedFacts(e.carrier);
    if e.assistant.Some? {
      PayloadFirst(s.g.log, o, op, e);
      ProducedByEntry(s.g.log, es, 0, o, r);
    } else if InFacts(CarriedFacts(e.carrier), r) {
      var k :| 0 <= k < |CarriedFacts(e.carrier)| && CarriedFacts(e.carrier)[k].request == r;
      assert FactsOf(x.body)[k].request == r;
      ProducedByEntry(s.g.log, es, |es| - 1, o, r);
    } else {
      assert !WitnessesRequest(CarriedFacts(e.carrier), r);
      assert SettlementProducer(op, e).Some? && SettlementRequest(op, e) == Some(r);
      ProducedByEntry(s.g.log, es, |es| - 1, o, r);
    }
  }

  lemma FactProduced(s: Sys, e: Ending, r: RequestId)
    requires Driving(s) && InFacts(CarriedFacts(e.carrier), r)
    ensures HasProducer(s.g.log + EndingEntries(s.g.log, Current(s), Op(s), e), Current(s), r)
  {
    hide EndingEntries, HasProducer;
    var o, op := Current(s), Op(s);
    SettlementLast(s.g.log, o, op, e);
    var x := SettlementEntry(o, op, e);
    var k :| 0 <= k < |CarriedFacts(e.carrier)| && CarriedFacts(e.carrier)[k].request == r;
    assert FactsOf(x.body)[k].request == r;
    ProducedByEntry(s.g.log, EndingEntries(s.g.log, o, op, e), |EndingEntries(s.g.log, o, op, e)| - 1, o, r);
  }

  /** What an ending must carry for the requests of its Operation to stay accounted. */
  ghost predicate CarriesFacts(s: Sys, e: Ending)
    requires Driving(s)
  {
    && (s.frame != Lost ==> CarriedFacts(e.carrier) == s.facts)
    && (s.frame == Lost ==> CarriedFacts(e.carrier) == [])
    && (Op(s).active.Some? && Op(s).active.value.ConversationEffect? ==>
          !e.maintenance && (e.assistant.Some? ==> e.assistant.value.request == Op(s).active.value.request))
    && (Op(s).active.Some? && Op(s).active.value.MaintenanceEffect? ==> e.assistant.None? && e.usage.None?)
    && (s.frame == Lost ==> e.carrier.None?)
  }

  lemma SettleCosted(s: Sys, s': Sys, e: Ending)
    requires Inv(s) && Costed(s) && Driving(s) && CarriesFacts(s, e) && e.status != Running
    requires s'.g == Settle(s.g, Current(s), e) && s'.intended == s.intended
    ensures Costed(s')
  {
    hide Inv, HasProducer, EndingLog, EndingEntries, CarriesFacts;
    var o, op := Current(s), Op(s);
    EndingLogSplits(s.g.log, o, op, e);
    var es := EndingEntries(s.g.log, o, op, e);
    assert s'.g.log == s.g.log + es;
    forall x, r | (x, r) in s'.intended ensures Kept(s', x, r) {
      assert Kept(s, x, r);
      if HasProducer(s.g.log, x, r) {
        ProducedGrows(s.g.log, es, x, r);
      } else if x == o {
        SettledRequest(s, e, r);
      }
    }
  }

  lemma SettledRequest(s: Sys, e: Ending, r: RequestId)
    requires Inv(s) && Driving(s) && CarriesFacts(s, e) && Kept(s, Current(s), r)
    requires !HasProducer(s.g.log, Current(s), r)
    ensures HasProducer(s.g.log + EndingEntries(s.g.log, Current(s), Op(s), e), Current(s), r)
            || EndedOperation(Op(s), e).unreportedMaintenance
  {
    hide Accepted, HasProducer, EndingEntries, FactsFit, RoundLogOk, CompactQuiet;
    if ModelRequest(Op(s).active, r) {
      if Op(s).active.value.MaintenanceEffect? && s.frame != Lost {
        assert s.facts[|s.facts| - 1].request == r;
      }
      LiveModelProduced(s, e, r);
    } else if s.frame != Lost {
      FactProduced(s, e, r);
    }
  }

  lemma FinishCosted(s: Sys, step: Step)
    requires Inv(s) && Costed(s) && IsFinish(step) && Next(s, step).Some?
    ensures Costed(Next(s, step).value)
  {
    hide Inv, Costed, EndingLog, FreshEntry, FreshProduced, Settle;
    FinishSettles(s, step);
    FinishCarries(s, step);
    SettleCosted(s, Next(s, step).value, EndingOf(s, step));
  }

  lemma FinishCarries(s: Sys, step: Step)
    requires IsFinish(step) && Next(s, step).Some?
    ensures Driving(s) && (step.FinishModelStep? ==> IsModelEffect(Op(s).active))
    ensures CarriesFacts(s, EndingOf(s, step)) && Next(s, step).value.intended == s.intended
  {
    hide EndingLog, FreshEntry, FreshProduced, Settle;
  }

  // ---- Checkpoints ----------------------------------------------------------------------------

  lemma CheckpointProduces(log: seq<Entry>, o: OpId, plan: Plan, carrier: Carrier, r: RequestId)
    requires InFacts(carrier.facts, r)
    ensures HasProducer(log + [CheckpointEntry(o, plan, carrier)], o, r)
  {
    var x := CheckpointEntry(o, plan, carrier);
    var k :| 0 <= k < |carrier.facts| && carrier.facts[k].request == r;
    assert FactsOf(x.body)[k].request == r;
    ProducedByEntry(log, [x], 0, o, r);
  }

  /** A checkpoint records the waiting facts and retires the marker. */
  lemma CheckpointCosted(s: Sys, plan: Plan, producer: RequestId, s': Sys)
    requires Costed(s) && Driving(s) && s.frame != Lost && Op(s).active.None?
    requires s'.g == CommitCheckpoint(s.g, Current(s), plan, ProcedureCarrier(s, producer)).value && s'.intended == s.intended
    ensures Costed(s')
  {
    hide HasProducer, RebuiltBoundary, ChargeFacts;
    var o, carrier := Current(s), ProcedureCarrier(s, producer);
    var x := CheckpointEntry(o, plan, carrier);
    assert s'.g.log == s.g.log + [x] && carrier.facts == s.facts;
    forall y, r | (y, r) in s'.intended ensures Kept(s', y, r) {
      assert Kept(s, y, r);
      if HasProducer(s.g.log, y, r) {
        ProducedGrows(s.g.log, [x], y, r);
      } else if y == o {
        CheckpointProduces(s.g.log, o, plan, carrier, r);
      }
    }
  }

  lemma CheckpointStepCosted(s: Sys, step: Step)
    requires Costed(s) && step.CheckpointStep? && Next(s, step).Some?
    ensures Costed(Next(s, step).value)
  {
    hide ProposalValid, RebuiltPaired, FreshEntry, CommitCheckpoint, Costed;
    CheckpointCosted(s, Plan(step.id, step.messages, step.boundary, RoundEvidence(s.frame)), step.producer, Next(s, step).value);
  }

  lemma ManualCheckpointCosted(s: Sys, step: Step)
    requires Inv(s) && Costed(s) && step.ManualCheckpointStep? && Next(s, step).Some?
    ensures Costed(Next(s, step).value)
  {
    hide Accepted, FactsFit, SafeCut, CoveredBoundary, RebuiltPaired, FreshEntry, Costed, EndingLog, RebuiltBoundary, ChargeFacts;
    var o := Current(s);
    var plan := Plan(step.id, step.messages, step.boundary, Evidence(s.frame.checkpoint, s.frame.tail.value, []));
    var mid := s.(g := CommitCheckpoint(s.g, o, plan, ProcedureCarrier(s, step.producer)).value, facts := []);
    CheckpointCosted(s, plan, step.producer, mid);
    QuietSettleCosted(mid, Next(s, step).value, SuccessEnding(None, step.settlement, step.signal));
  }

  /** A quiet settlement with nothing waiting. */
  lemma QuietSettleCosted(s: Sys, s': Sys, e: Ending)
    requires Costed(s) && Driving(s) && s.frame != Lost && Op(s).active.None? && s.facts == [] && e.status != Running
    requires s'.g == Settle(s.g, Current(s), e) && s'.intended == s.intended
    ensures Costed(s')
  {
    hide HasProducer, EndingLog, EndingEntries;
    var o, op := Current(s), Op(s);
    EndingLogSplits(s.g.log, o, op, e);
    var es := EndingEntries(s.g.log, o, op, e);
    assert s'.g.log == s.g.log + es;
    forall x, r | (x, r) in s'.intended ensures Kept(s', x, r) {
      assert Kept(s, x, r);
      if HasProducer(s.g.log, x, r) {
        ProducedGrows(s.g.log, es, x, r);
      }
    }
  }

  lemma AdmissionCosted(s: Sys, step: Step)
    requires Inv(s) && Costed(s) && Next(s, step).Some?
    requires step.AdmitMessageStep? || step.AdmitCompactStep? || step.CompletionStep? || step.LifecycleStep?
    ensures Costed(Next(s, step).value)
  {
    hide Accepted, FactsFit, FrameOk, FreshEntry, HasProducer;
    var s' := Next(s, step).value;
    var es := s'.g.log[|s.g.log|..];
    assert s'.g.log == s.g.log + es && s'.intended == s.intended;
    forall o, r | (o, r) in s'.intended ensures Kept(s', o, r) {
      assert Kept(s, o, r);
      if HasProducer(s.g.log, o, r) {
        ProducedGrows(s.g.log, es, o, r);
      }
    }
  }

  /** A ready or continue output carries an eligible payload. */
  predicate Eligible(step: Step) {
    step.CommitModelStep? ==> step.produced.Some?
  }

  lemma NextCosted(s: Sys, step: Step)
    requires Inv(s) && Costed(s) && Next(s, step).Some? && Eligible(step)
    ensures Costed(Next(s, step).value)
  {
    hide Inv, Costed, Next;
    if InMemory(step) {
      MemoryCosted(s, step);
    } else if step.CommitMaintenance? {
      NextIsCommit(s, step);
      MaintenanceCosted(s, step.usage);
    } else if IsIntent(step) {
      IntentCosted(s, step);
    } else if IsFinish(step) {
      FinishCosted(s, step);
    } else if step.Invoke? {
      NextIsCommit(s, step);
      InvokeCosted(s);
    } else if step.CheckpointStep? {
      CheckpointStepCosted(s, step);
    } else if step.ManualCheckpointStep? {
      ManualCheckpointCosted(s, step);
    } else if step.CommitModelStep? {
      NextIsCommit(s, step);
      ModelResultCosted(s, step.produced.value, step.continuation);
    } else if IsResult(step) {
      CallResultCosted(s, step);
    } else {
      AdmissionCosted(s, step);
    }
  }

  lemma NextIsCommit(s: Sys, step: Step)
    ensures step.CommitMaintenance? ==> Next(s, step) == CommitMaintenanceNext(s, step.usage)
    ensures step.Invoke? ==> Next(s, step) == InvokeNext(s)
    ensures step.CommitModelStep? ==> Next(s, step) == CommitModelNext(s, step.produced, step.continuation)
  {
    hide AdmitMessageNext, AdmitCompactNext, OpenRoundNext, PureRequestHookNext, StopRoundNext, BeginRequestHookNext,
      CommitRequestHookNext, OpenManualNext, BeginMaintenanceNext, CommitMaintenanceNext, CheckpointNext,
      ManualCheckpointNext, ManualNoneNext, BeginModelNext, CommitModelNext, FinishModelNext, FinishMaintenanceNext,
      FinishQuietNext, OpenChainNext, PureCallHookNext, BeginCallHookNext, CommitCallHookNext, SettleCallNext,
      BeginToolNext, InvokeNext, CommitToolNext, CompletionNext, LifecycleNext, CrashNext, RecoverNext, RestartNext;
  }

  ghost predicate EligibleMoves(moves: seq<Move>) {
    forall i :: 0 <= i < |moves| && moves[i].Drive? ==> Eligible(moves[i].step)
  }

  /** In every run of the store, every committed model intent stays accounted. */
  lemma {:induction false} EveryRunIsCosted(moves: seq<Move>)
    requires Run(map[], moves).Some? && EligibleMoves(moves)
    ensures forall id :: id in Run(map[], moves).value ==> Costed(Run(map[], moves).value[id])
  {
    hide Costed, Next, Good;
    if |moves| > 0 {
      var n := |moves| - 1;
      assert EligibleMoves(moves[..n]) by {
        assert forall i :: 0 <= i < n ==> moves[..n][i] == moves[i];
      }
      EveryRunIsCosted(moves[..n]);
      EveryRunIsGood(moves[..n]);
      MoveCosted(Run(map[], moves[..n]).value, moves[n]);
    }
  }

  lemma MoveCosted(store: Store, move: Move)
    requires forall id :: id in store ==> Good(store[id]) && Costed(store[id])
    requires Apply(store, move).Some? && (move.Drive? ==> Eligible(move.step))
    ensures forall id :: id in Apply(store, move).value ==> Costed(Apply(store, move).value[id])
  {
    hide Costed, Next, Good;
    match move
    case Create(id) => NothingIntended(EmptySession());
    case Drive(id, step) =>
      GoodIsInv(store[id]);
      NextCosted(store[id], step);
    case ForkAt(source, id, n, rho, o, entry, text) =>
      var base := ForkedSession(store[source].g, n, rho);
      AdmissionIntendsNothing(base, o, entry, text);
      NothingIntended(AdmitMessageNext(base, o, entry, User, text).value);
  }

  lemma NothingIntended(s: Sys)
    requires s.intended == {}
    ensures Costed(s)
  {
  }

  lemma AdmissionIntendsNothing(s: Sys, o: OpId, entry: EntryId, text: Text)
    requires AdmitMessageNext(s, o, entry, User, text).Some?
    ensures AdmitMessageNext(s, o, entry, User, text).value.intended == s.intended
  {
  }

  /** In every run the intents the estimate speaks of are all that were committed. */
  lemma {:induction false} EveryRunRecordsIntents(moves: seq<Move>)
    requires Run(map[], moves).Some?
    ensures forall id :: id in Run(map[], moves).value ==> IntentsRecorded(Run(map[], moves).value[id])
  {
    hide IntentsRecorded, Next;
    if |moves| > 0 {
      EveryRunRecordsIntents(moves[..|moves| - 1]);
      MoveRecords(Run(map[], moves[..|moves| - 1]).value, moves[|moves| - 1]);
    }
  }

  lemma MoveRecords(store: Store, move: Move)
    requires forall id :: id in store ==> IntentsRecorded(store[id])
    requires Apply(store, move).Some?
    ensures forall id :: id in Apply(store, move).value ==> IntentsRecorded(Apply(store, move).value[id])
  {
    hide IntentsRecorded, Next;
    match move
    case Create(id) => IdleRecords(EmptySession());
    case Drive(id, step) => NextRecords(store[id], step);
    case ForkAt(source, id, n, rho, o, entry, text) =>
      var base := ForkedSession(store[source].g, n, rho);
      IdleRecords(base);
      AdmissionIsStep(base, o, entry, text);
      NextRecords(base, AdmitMessageStep(o, entry, User, text));
  }

  lemma AdmissionIsStep(s: Sys, o: OpId, entry: EntryId, text: Text)
    ensures Next(s, AdmitMessageStep(o, entry, User, text)) == AdmitMessageNext(s, o, entry, User, text)
  {
  }

  lemma IdleRecords(s: Sys)
    requires s.g.session.current.None? && s.invoked == []
    ensures IntentsRecorded(s)
  {
  }

  /** A known estimate of a settled Operation has a reported usage for every model request
      whose intent it ever committed, dispatched or cut off before its callback, across
      checkpoints, procedures that end at none, crashes and recoveries. */
  lemma KnownEstimateIsComplete(s: Sys, o: OpId, rate: Rate, r: RequestId)
    requires Costed(s) && o in s.g.ops && s.g.ops[o].status != Running && (o, r) in s.intended
    requires OperationEstimate(s.g, o, rate).Some?
    ensures exists i :: 0 <= i < |s.g.log| && Owned(s.g.log[i], o) && Reports(s.g.log[i].body, r)
  {
    assert Kept(s, o, r);
    KnownReports(s.g.log, o, rate, r);
    var i :| 0 <= i < |s.g.log| && Owned(s.g.log[i], o) && Produces(s.g.log[i].body, r);
  }
}
