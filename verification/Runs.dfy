/** Whole runs of the store: Sessions created, driven step by step, crashed and
    recovered, and forked from one another, in any interleaving. */
module Runs {
  import opened Records
  import opened Validator
  import opened View
  import opened Driver
  import opened Discipline
  import opened Shape
  import opened History
  import opened Projection
  import opened Fork
  import opened Pairing
  import opened Exchanges
  import opened Invocations
  import opened Tallies

  type SessionId = nat
  type Store = map<SessionId, Sys>

  datatype Move =
    | Create(id: SessionId)
    | Drive(id: SessionId, step: Step)
    | ForkAt(source: SessionId, id: SessionId, point: nat, rho: EntryId -> EntryId, op: OpId, entry: EntryId, text: Text)

  function EmptySession(): Sys {
    Sys(Graph(Session(false, true, None, None, map[]), map[], []), Idle, [], [], false, {}, {})
  }

  /** The destination of a fork before its own admission. */
  function ForkedSession(g: Graph, n: nat, rho: EntryId -> EntryId): Sys
    requires n <= |g.log|
  {
    Sys(ForkBase(g.log[..n], rho), Idle, [], [], false, {}, {})
  }

  ghost function Apply(store: Store, move: Move): Option<Store> {
    match move
    case Create(id) => if id in store then None else Some(store[id := EmptySession()])
    case Drive(id, step) =>
      if id !in store then None
      else
        var s := Next(store[id], step);
        if s.None? then None else Some(store[id := s.value])
    case ForkAt(source, id, n, rho, o, entry, text) =>
      if source !in store || id in store || !IsForkPoint(store[source].g.log, n) || !Injective(rho) then None
      else
        var s := AdmitMessageNext(ForkedSession(store[source].g, n, rho), o, entry, User, text);
        if s.None? then None else Some(store[id := s.value])
  }

  ghost function Run(store: Store, moves: seq<Move>): Option<Store> {
    if |moves| == 0 then Some(store)
    else
      var before := Run(store, moves[..|moves| - 1]);
      if before.None? then None else Apply(before.value, moves[|moves| - 1])
  }

  /** Everything that holds of one Session between two steps of a run. */
  ghost predicate Good(s: Sys) {
    Inv(s) && Disciplined(s.g) && Exchanging(s.g) && Honest(s)
  }

  lemma EmptyIsAccepted()
    ensures Accepted(EmptySession().g)
  {
    var g := EmptySession().g;
    assert g.session.usage == SessionUsage(g.log);
  }

  lemma EmptyIsGood()
    ensures Good(EmptySession())
  {
    hide Accepted, Disciplined, Exchanging, Honest;
    EmptyIsAccepted();
    EmptyIsDisciplined();
    EmptyExchanges();
    EmptyIsHonest();
  }

  lemma EmptyIsDisciplined()
    ensures Disciplined(EmptySession().g)
  {
  }

  lemma EmptyExchanges()
    ensures Exchanging(EmptySession().g)
  {
    assert Project(EmptySession().g.log, None) == [];
    assert Outstanding([]) == Some(map[]);
  }

  lemma EmptyIsHonest()
    ensures Honest(EmptySession())
  {
  }

  lemma StepIsGood(s: Sys, step: Step)
    requires Good(s) && Next(s, step).Some?
    ensures Good(Next(s, step).value)
  {
    hide Inv, Disciplined, Exchanging, Honest, Next;
    NextKeeps(s, step);
    NextDisciplined(s, step);
    NextExchanges(s, step);
    NextHonest(s, step);
  }

  /** A copied view pairs where its source did. */
  lemma CopiedPairs(g: Graph, i: nat, rho: EntryId -> EntryId)
    requires Accepted(g) && Disciplined(g) && InputsPaired(g.log) && i < |g.log| && g.log[i].body.Input? && Injective(rho)
    ensures Paired(Project(Copied(g.log[..i], rho), NewestCheckpoint(Copied(g.log[..i], rho))))
  {
    hide Accepted, Disciplined, Paired, Project, Copied, Injective;
    ForkPreservesProjection(g, i, rho);
  }

  lemma ForkedInputsPaired(g: Graph, n: nat, rho: EntryId -> EntryId)
    requires Accepted(g) && Disciplined(g) && InputsPaired(g.log) && n <= |g.log| && Injective(rho)
    ensures InputsPaired(Copied(g.log[..n], rho))
  {
    hide Accepted, Disciplined, Paired, Project, Injective, InputsPaired;
    var log := g.log[..n];
    var copied := Copied(log, rho);
    forall d | 0 <= d < |copied| && copied[d].body.Input? ensures Paired(Project(copied[..d], NewestCheckpoint(copied[..d]))) {
      var i := SourceOf(log, rho, d);
      CopiedInputs(log, rho, i);
      assert log[..i] == g.log[..i];
      CopiedPairs(g, i, rho);
    }
    FoldInputsPaired(copied);
  }

  lemma FoldInputsPaired(log: seq<Entry>)
    requires forall d :: 0 <= d < |log| && log[d].body.Input? ==> Paired(Project(log[..d], NewestCheckpoint(log[..d])))
    ensures InputsPaired(log)
  {
  }

  lemma ForkIsGood(s: Sys, n: nat, rho: EntryId -> EntryId)
    requires Good(s) && IsForkPoint(s.g.log, n) && Injective(rho)
    ensures Good(ForkedSession(s.g, n, rho))
  {
    hide Accepted, Disciplined, Exchanging, Paired, Project, Copied, Injective, InputsPaired;
    var dest := ForkedSession(s.g, n, rho);
    ForkAccepted(s.g, n, rho);
    GoodParts(s);
    CopiedPairs(s.g, n, rho);
    ForkedInputsPaired(s.g, n, rho);
    PairedOpens(Project(dest.g.log, dest.g.session.checkpoint));
    UnsettledBase(dest.g);
  }

  lemma UnsettledBase(g: Graph)
    requires g.session.current.None? && ViewOpens(Project(g.log, g.session.checkpoint), {}) && InputsPaired(g.log)
    ensures Exchanging(g)
  {
  }

  lemma GoodIsInv(s: Sys)
    requires Good(s)
    ensures Inv(s) && Honest(s)
  {
  }

  lemma GoodParts(s: Sys)
    requires Good(s)
    ensures Accepted(s.g) && Disciplined(s.g) && InputsPaired(s.g.log)
  {
  }

  lemma MoveIsGood(store: Store, move: Move)
    requires forall id :: id in store ==> Good(store[id])
    requires Apply(store, move).Some?
    ensures forall id :: id in Apply(store, move).value ==> Good(Apply(store, move).value[id])
  {
    hide Good, Next, Injective;
    match move
    case Create(id) => EmptyIsGood();
    case Drive(id, step) => StepIsGood(store[id], step);
    case ForkAt(source, id, n, rho, o, entry, text) =>
      ForkIsGood(store[source], n, rho);
      AdmissionStep(ForkedSession(store[source].g, n, rho), o, entry, text);
  }

  lemma AdmissionStep(s: Sys, o: OpId, entry: EntryId, text: Text)
    requires Good(s) && AdmitMessageNext(s, o, entry, User, text).Some?
    ensures Good(AdmitMessageNext(s, o, entry, User, text).value)
  {
    hide Good;
    StepIsGood(s, AdmitMessageStep(o, entry, User, text));
  }

  /** In every run of the store, with any steps, crashes, recoveries and forks in any
      interleaving, every Session is one the validator accepts, with serial
      Operations, resolved inputs, paired views, and at-most-once effects. */
  lemma {:induction false} EveryRunIsGood(moves: seq<Move>)
    requires Run(map[], moves).Some?
    ensures forall id :: id in Run(map[], moves).value ==> Good(Run(map[], moves).value[id])
  {
    hide Good, Apply;
    if |moves| > 0 {
      EveryRunIsGood(moves[..|moves| - 1]);
      MoveIsGood(Run(map[], moves[..|moves| - 1]).value, moves[|moves| - 1]);
    }
  }

  // ---- Forks go through ------------------------------------------------------------------

  /** Every user message of a Session can be forked at, into any free Session under any fresh
      identities. The destination is an open fork, idle but for the new message, that charges
      nothing and projects what the source projected there, and then that message. */
  lemma ForkGoesThrough(store: Store, source: SessionId, id: SessionId, n: nat, rho: EntryId -> EntryId, o: OpId, entry: EntryId,
                        text: Text)
    requires source in store && Good(store[source]) && id !in store
    requires IsForkPoint(store[source].g.log, n) && Injective(rho) && FreshEntry(ForkedSession(store[source].g, n, rho).g, entry)
    ensures Apply(store, ForkAt(source, id, n, rho, o, entry, text)).Some?
    ensures var store' := Apply(store, ForkAt(source, id, n, rho, o, entry, text)).value;
            var log := store[source].g.log[..n];
            && id in store' && (forall x :: x in store ==> x in store' && store'[x] == store[x])
            && var s := store'[id];
               && s.g.session.fork && s.g.session.open && s.g.session.current == Some(o) && s.g.session.usage == map[]
               && s.g.ops.Keys == {o} && s.g.ops[o].status == Running && s.frame == Idle && s.facts == [] && s.invoked == []
               && Project(s.g.log, s.g.session.checkpoint) == Project(log, NewestCheckpoint(log)) + [UserMessage(text)]
  {
    hide Good, Injective, FreshEntry, Project, Copied;
    ForkBaseSays(store[source].g, n, rho);
    var base := ForkedSession(store[source].g, n, rho);
    ForkIsGood(store[source], n, rho);
    AdmissionStep(base, o, entry, text);
    ForkProjects(store[source], n, rho);
    AdmittedView(base, o, entry, text);
  }

  lemma ForkBaseSays(g: Graph, n: nat, rho: EntryId -> EntryId)
    requires IsForkPoint(g.log, n)
    ensures n <= |g.log|
    ensures var s := ForkedSession(g, n, rho);
            && s.g.session.fork && s.g.session.open && s.g.session.current.None? && s.g.session.usage == map[]
            && s.g.ops == map[] && s.frame == Idle && s.facts == [] && s.invoked == []
  {
    hide Copied;
  }

  lemma ForkProjects(s: Sys, n: nat, rho: EntryId -> EntryId)
    requires Good(s) && IsForkPoint(s.g.log, n) && Injective(rho)
    ensures var g := ForkedSession(s.g, n, rho).g;
            Project(g.log, g.session.checkpoint) == Project(s.g.log[..n], NewestCheckpoint(s.g.log[..n]))
  {
    hide Accepted, Disciplined, Exchanging, Honest, Project, Copied, Injective;
    ForkPreservesProjection(s.g, n, rho);
  }

  /** Admission adds the message to the end of the view, and nothing else to it. */
  lemma AdmittedView(s: Sys, o: OpId, entry: EntryId, text: Text)
    requires Good(s) && AdmitMessageNext(s, o, entry, User, text).Some?
    requires Good(AdmitMessageNext(s, o, entry, User, text).value)
    ensures var g := AdmitMessageNext(s, o, entry, User, text).value.g;
            Project(g.log, g.session.checkpoint) == Project(s.g.log, s.g.session.checkpoint) + [UserMessage(text)]
  {
    hide Accepted, DriverOk, Exchanging, Honest, Project, DistinctIds, FreshEntry, Serial, ResultsFollow, InputsSafe, CutsProject,
      CutsIncrease, OwnsTail, NamesAt;
    var e := Entry(entry, Some(o), Input(User, text));
    var g := AdmitMessageNext(s, o, entry, User, text).value.g;
    AcceptedDistinct(g);
    if s.g.session.checkpoint.Some? {
      RegisterNames(s.g);
    }
    ArrivalsJoin(s.g.log, [e], s.g.session.checkpoint);
    EntrySays(e);
  }

  // ---- What a good Session tells its readers --------------------------------------------

  /** Usage is conserved: the Session's and each Operation's totals list exactly the models
      some committed producer reported on, each count the sum of what they reported. */
  lemma UsageConserved(s: Sys, o: OpId)
    requires Good(s) && o in s.g.ops
    ensures Tallied(s.g.session.usage, Producers(s.g.log, None))
    ensures Tallied(s.g.ops[o].usage, Producers(s.g.log, Some(o)))
    ensures s.g.session.usage == SessionUsage(s.g.log)
    ensures s.g.ops[o].usage == OperationUsage(s.g.log, o)
  {
    hide Tallied, Producers;
    SessionTallies(s.g.log);
    OperationTallies(s.g.log, o);
  }

  /** A maintenance fact is recorded once: on a checkpoint or on a settlement, never both. */
  lemma FactsRecordedOnce(s: Sys, o: OpId, i: int, k: int, j: int, l: int)
    requires Good(s) && 0 <= i < |s.g.log| && 0 <= j < |s.g.log| && Owned(s.g.log[i], o) && Owned(s.g.log[j], o)
    requires 0 <= k < |FactsOf(s.g.log[i].body)| && 0 <= l < |FactsOf(s.g.log[j].body)|
    requires FactsOf(s.g.log[i].body)[k].request == FactsOf(s.g.log[j].body)[l].request
    ensures i == j && k == l
  {
    hide LogConsistent, OperationsAgree, DriverOk, Disciplined, Exchanging, Honest;
    if i < j {
      EarlierFactUsed(s.g, o, i, k, j, l);
    } else if j < i {
      EarlierFactUsed(s.g, o, j, l, i, k);
    } else {
      assert Fits(s.g.session.fork, Admissions(s.g.ops), s.g.log[..i], s.g.log[i]);
    }
  }

  lemma EarlierFactUsed(g: Graph, o: OpId, i: int, k: int, j: int, l: int)
    requires Accepted(g) && 0 <= i < j < |g.log| && Owned(g.log[i], o) && Owned(g.log[j], o)
    requires 0 <= k < |FactsOf(g.log[i].body)| && 0 <= l < |FactsOf(g.log[j].body)|
    ensures FactsOf(g.log[i].body)[k].request != FactsOf(g.log[j].body)[l].request
  {
    hide LogConsistent, OperationsAgree, OwnedFits;
    assert Fits(g.session.fork, Admissions(g.ops), g.log[..j], g.log[j]);
    FactsAreNew(Admissions(g.ops), g.log[..j], g.log[j], o, l);
    assert g.log[..j][i] == g.log[i];
  }

  lemma FactsAreNew(adm: map<OpId, Admission>, log: seq<Entry>, e: Entry, o: OpId, l: int)
    requires OwnedFits(adm, log, e, o) && 0 <= l < |FactsOf(e.body)|
    ensures !ProducerUsed(log, o, FactsOf(e.body)[l].request)
  {
  }

  /** Once an Operation is settled, no later step of its Session changes it. */
  lemma SettledForGood(s: Sys, step: Step, o: OpId)
    requires Good(s) && Next(s, step).Some? && o in s.g.ops && s.g.ops[o].status != Running
    ensures o in Next(s, step).value.g.ops && Next(s, step).value.g.ops[o] == s.g.ops[o]
  {
    hide Good, Next, Inv;
    RecordsGrow(s, step);
  }

  /** No entry is ever changed or removed. */
  lemma LogAppends(s: Sys, step: Step)
    requires Next(s, step).Some?
    ensures s.g.log <= Next(s, step).value.g.log
  {
    hide Next;
    RecordsGrow(s, step);
  }
}
