/** What a usage total must be: model by model, the integer sums of what the committed
    entries report (harness/usage.go, graph.go). The sums are stated on the entries'
    own fields, apart from the accumulation the transactions use. */
module Tallies {
  import opened Records
  import opened Validator

  function InputOf(u: Usage): int {
    u.input
  }

  function CachedOf(u: Usage): int {
    u.cached
  }

  function OutputOf(u: Usage): int {
    u.output
  }

  /** One committed producer of model usage; a request may end without a reported usage. */
  datatype Producer = Producer(model: ModelRef, usage: Option<Usage>)

  function FactProducers(facts: seq<Fact>): seq<Producer> {
    seq(|facts|, k requires 0 <= k < |facts| => Producer(facts[k].model, facts[k].usage))
  }

  /** The producers one entry records: an assistant's source, a no-output settlement's
      producer, and every maintenance fact. */
  function ProducersOf(b: Body): seq<Producer> {
    if b.Assistant? then [Producer(b.source, b.usage)]
    else if b.Settled? then
      (if b.settlement.producer.Some? then [Producer(b.settlement.producer.value, b.settlement.usage)] else [])
      + FactProducers(b.settlement.facts)
    else if b.Checkpoint? then FactProducers(b.facts)
    else []
  }

  /** The producers of one Operation, or of the whole Session. */
  function Producers(log: seq<Entry>, owner: Option<OpId>): seq<Producer> {
    if |log| == 0 then []
    else
      var last := log[|log| - 1];
      Producers(log[..|log| - 1], owner) + if owner.None? || last.owner == owner then ProducersOf(last.body) else []
  }

  /** The sum of one count over what the producers of one model reported. */
  function Sum(ps: seq<Producer>, m: ModelRef, count: Usage -> int): int {
    if |ps| == 0 then 0
    else
      var last := ps[|ps| - 1];
      Sum(ps[..|ps| - 1], m, count) + if last.model == m && last.usage.Some? then count(last.usage.value) else 0
  }

  ghost predicate ReportedOn(ps: seq<Producer>, m: ModelRef) {
    exists i :: 0 <= i < |ps| && ps[i].model == m && ps[i].usage.Some?
  }

  /** The total lists exactly the models some producer reported on, each count the sum of
      what they reported. */
  ghost predicate Tallied(t: Totals, ps: seq<Producer>) {
    && (forall m :: m in t <==> ReportedOn(ps, m))
    && (forall m :: m in t ==> t[m].input == Sum(ps, m, InputOf))
    && (forall m :: m in t ==> t[m].cached == Sum(ps, m, CachedOf))
    && (forall m :: m in t ==> t[m].output == Sum(ps, m, OutputOf))
  }

  lemma {:induction false} Unreported(ps: seq<Producer>, m: ModelRef, count: Usage -> int)
    requires !ReportedOn(ps, m)
    ensures Sum(ps, m, count) == 0
  {
    if |ps| > 0 {
      var n := |ps| - 1;
      assert !(ps[n].model == m && ps[n].usage.Some?);
      assert forall i :: 0 <= i < n ==> ps[..n][i] == ps[i];
      Unreported(ps[..n], m, count);
    }
  }

  lemma {:induction false} SumConcat(a: seq<Producer>, b: seq<Producer>, m: ModelRef, count: Usage -> int)
    ensures Sum(a + b, m, count) == Sum(a, m, count) + Sum(b, m, count)
  {
    if |b| == 0 {
      assert a + b == a;
    } else {
      var n := |b| - 1;
      SumConcat(a, b[..n], m, count);
      assert (a + b)[..|a| + n] == a + b[..n] && (a + b)[|a| + n] == b[n];
    }
  }

  lemma ReportedEither(a: seq<Producer>, b: seq<Producer>, m: ModelRef)
    ensures ReportedOn(a + b, m) <==> ReportedOn(a, m) || ReportedOn(b, m)
  {
    if ReportedOn(a, m) {
      var i :| 0 <= i < |a| && a[i].model == m && a[i].usage.Some?;
      assert (a + b)[i] == a[i];
    }
    if ReportedOn(b, m) {
      var i :| 0 <= i < |b| && b[i].model == m && b[i].usage.Some?;
      assert (a + b)[|a| + i] == b[i];
    }
  }

  /** One count of a total, zero for a model it does not list. */
  function CountIn(t: Totals, m: ModelRef, count: Usage -> int): int {
    if m in t then count(t[m]) else 0
  }

  lemma TalliedCounts(t: Totals, ps: seq<Producer>, m: ModelRef)
    requires Tallied(t, ps)
    ensures CountIn(t, m, InputOf) == Sum(ps, m, InputOf)
    ensures CountIn(t, m, CachedOf) == Sum(ps, m, CachedOf)
    ensures CountIn(t, m, OutputOf) == Sum(ps, m, OutputOf)
  {
    if m !in t {
      Unreported(ps, m, InputOf);
      Unreported(ps, m, CachedOf);
      Unreported(ps, m, OutputOf);
    }
  }

  /** Two tallied totals joined model by model, each count their sum, are tallied together. */
  lemma JoinTallies(a: Totals, pa: seq<Producer>, b: Totals, pb: seq<Producer>, t: Totals)
    requires Tallied(a, pa) && Tallied(b, pb) && t.Keys == a.Keys + b.Keys
    requires forall m :: m in t ==> t[m].input == CountIn(a, m, InputOf) + CountIn(b, m, InputOf)
    requires forall m :: m in t ==> t[m].cached == CountIn(a, m, CachedOf) + CountIn(b, m, CachedOf)
    requires forall m :: m in t ==> t[m].output == CountIn(a, m, OutputOf) + CountIn(b, m, OutputOf)
    ensures Tallied(t, pa + pb)
  {
    forall m
      ensures m in t <==> ReportedOn(pa + pb, m)
      ensures m in t ==> t[m].input == Sum(pa + pb, m, InputOf)
      ensures m in t ==> t[m].cached == Sum(pa + pb, m, CachedOf)
      ensures m in t ==> t[m].output == Sum(pa + pb, m, OutputOf)
    {
      hide Sum, CountIn, Tallied;
      assert (m in a <==> ReportedOn(pa, m)) && (m in b <==> ReportedOn(pb, m)) by { TalliedModels(a, pa, b, pb, m); }
      ReportedEither(pa, pb, m);
      TalliedCounts(a, pa, m);
      TalliedCounts(b, pb, m);
      SumConcat(pa, pb, m, InputOf);
      SumConcat(pa, pb, m, CachedOf);
      SumConcat(pa, pb, m, OutputOf);
      assert m in t <==> m in a.Keys + b.Keys;
    }
  }

  lemma TalliedModels(a: Totals, pa: seq<Producer>, b: Totals, pb: seq<Producer>, m: ModelRef)
    requires Tallied(a, pa) && Tallied(b, pb)
    ensures (m in a <==> ReportedOn(pa, m)) && (m in b <==> ReportedOn(pb, m))
  {
  }

  function OneTotal(m: ModelRef, u: Option<Usage>): Totals {
    if u.Some? then map[m := u.value] else map[]
  }

  lemma OneProducer(m: ModelRef, u: Option<Usage>)
    ensures Tallied(OneTotal(m, u), [Producer(m, u)])
  {
    var ps := [Producer(m, u)];
    assert ps[..0] == [] && ps[0].model == m;
    forall count: Usage -> int ensures Sum(ps, m, count) == if u.Some? then count(u.value) else 0 {
      assert Sum(ps, m, count) == Sum(ps[..0], m, count) + if u.Some? then count(u.value) else 0;
    }
  }

  /** One producer: charged when it reports. */
  lemma ProducerTallies(t: Totals, ps: seq<Producer>, m: ModelRef, u: Option<Usage>)
    requires Tallied(t, ps)
    ensures Tallied(if u.Some? then Charge(t, m, u.value) else t, ps + [Producer(m, u)])
  {
    OneProducer(m, u);
    JoinTallies(t, ps, OneTotal(m, u), [Producer(m, u)], if u.Some? then Charge(t, m, u.value) else t);
  }

  lemma {:induction false} FactsTally(t: Totals, ps: seq<Producer>, facts: seq<Fact>)
    requires Tallied(t, ps)
    ensures Tallied(ChargeFacts(t, facts), ps + FactProducers(facts))
  {
    hide Tallied, Charge;
    if |facts| == 0 {
      assert ps + FactProducers(facts) == ps;
    } else {
      var n := |facts| - 1;
      FactsTally(t, ps, facts[..n]);
      ProducerTallies(ChargeFacts(t, facts[..n]), ps + FactProducers(facts[..n]), facts[n].model, facts[n].usage);
      assert ps + FactProducers(facts) == ps + FactProducers(facts[..n]) + [Producer(facts[n].model, facts[n].usage)];
    }
  }

  lemma EntryTallies(t: Totals, ps: seq<Producer>, b: Body)
    requires Tallied(t, ps)
    ensures Tallied(ChargeEntry(t, b), ps + ProducersOf(b))
  {
    hide Tallied, Charge, ChargeFacts, FactProducers;
    match b
    case Assistant(_, _, source, usage, _, _, _) =>
      ProducerTallies(t, ps, source, usage);
    case Settled(s) =>
      SettlementTallies(t, ps, s);
    case Checkpoint(_, _, facts, _, _) =>
      FactsTally(t, ps, facts);
    case _ =>
      assert ps + ProducersOf(b) == ps;
  }

  lemma SettlementTallies(t: Totals, ps: seq<Producer>, s: Settlement)
    requires Tallied(t, ps)
    ensures Tallied(ChargeEntry(t, Settled(s)), ps + ProducersOf(Settled(s)))
  {
    hide Tallied, Charge, ChargeFacts, FactProducers;
    if s.producer.Some? {
      var one := [Producer(s.producer.value, s.usage)];
      ProducerTallies(t, ps, s.producer.value, s.usage);
      FactsTally(if s.usage.Some? then Charge(t, s.producer.value, s.usage.value) else t, ps + one, s.facts);
      assert ps + ProducersOf(Settled(s)) == ps + one + FactProducers(s.facts);
    } else {
      FactsTally(t, ps, s.facts);
      assert ProducersOf(Settled(s)) == FactProducers(s.facts);
    }
  }

  /** The totals recomputed from the log are, count by count, the sums of what it reports. */
  lemma {:induction false} OperationTallies(log: seq<Entry>, o: OpId)
    ensures Tallied(OperationUsage(log, o), Producers(log, Some(o)))
  {
    hide ChargeEntry, ProducersOf;
    if |log| > 0 {
      hide Tallied;
      var n := |log| - 1;
      OperationTallies(log[..n], o);
      EntryTallies(OperationUsage(log[..n], o), Producers(log[..n], Some(o)), log[n].body);
      if !Owned(log[n], o) {
        assert Producers(log, Some(o)) == Producers(log[..n], Some(o));
      }
    }
  }

  lemma {:induction false} SessionTallies(log: seq<Entry>)
    ensures Tallied(SessionUsage(log), Producers(log, None))
  {
    hide ChargeEntry, ProducersOf;
    if |log| > 0 {
      hide Tallied;
      var n := |log| - 1;
      SessionTallies(log[..n]);
      EntryTallies(SessionUsage(log[..n]), Producers(log[..n], None), log[n].body);
    }
  }
}
