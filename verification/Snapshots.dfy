/** What one transaction sees and what it may do to it (harness/storage.go, usage.go): the
    registers with their revisions, the comparison every transaction makes before it
    writes, and the checked usage arithmetic that can abort it. */
module Snapshots {
  import opened Records
  import opened Validator
  import opened Transactions
  import opened Tallies

  // ---- Checked totals ---------------------------------------------------------------

  const MAX_COUNT := 0x7FFF_FFFF_FFFF_FFFF
  const MIN_COUNT := -0x8000_0000_0000_0000

  predicate Countable(u: Usage) {
    MIN_COUNT <= u.input <= MAX_COUNT && MIN_COUNT <= u.cached <= MAX_COUNT && MIN_COUNT <= u.output <= MAX_COUNT
  }

  function Merge(a: Totals, b: Totals): Totals {
    map m | m in a.Keys + b.Keys :: if m !in b then a[m] else if m !in a then b[m] else AddUsage(a[m], b[m])
  }

  /** Model by model under checked 64-bit arithmetic; nothing on overflow. */
  function AddTotals(a: Totals, b: Totals): Option<Totals> {
    if forall m :: m in a && m in b ==> Countable(AddUsage(a[m], b[m])) then Some(Merge(a, b)) else None
  }

  function AddBoth(a: Option<Totals>, b: Option<Totals>): Option<Totals> {
    if a.None? || b.None? then None else AddTotals(a.value, b.value)
  }

  function UsageContribution(u: Option<(ModelRef, Usage)>): Totals {
    if u.Some? then map[u.value.0 := u.value.1] else map[]
  }

  function FactsContribution(facts: seq<Fact>): Option<Totals> {
    if |facts| == 0 then Some(map[])
    else
      var last := facts[|facts| - 1];
      var rest := FactsContribution(facts[..|facts| - 1]);
      if last.usage.None? then rest
      else AddBoth(rest, Some(UsageContribution(Some((last.model, last.usage.value)))))
  }

  function ProducedUsage(a: Option<Produced>): Option<(ModelRef, Usage)> {
    if a.Some? && a.value.usage.Some? then Some((a.value.source, a.value.usage.value)) else None
  }

  function EndingContribution(e: Ending): Option<Totals> {
    AddBoth(Some(UsageContribution(if ProducedUsage(e.assistant).Some? then ProducedUsage(e.assistant) else e.usage)),
            FactsContribution(CarriedFacts(e.carrier)))
  }

  /** Checked addition, count by count: nothing exactly when a model both list would leave the
      64-bit range in some count, otherwise every listed model's counts are the two sums. */
  lemma AddedByCount(a: Totals, b: Totals)
    ensures AddTotals(a, b).None? <==>
              exists m :: m in a && m in b &&
                          !(&& -0x8000_0000_0000_0000 <= a[m].input + b[m].input <= 0x7FFF_FFFF_FFFF_FFFF
                            && -0x8000_0000_0000_0000 <= a[m].cached + b[m].cached <= 0x7FFF_FFFF_FFFF_FFFF
                            && -0x8000_0000_0000_0000 <= a[m].output + b[m].output <= 0x7FFF_FFFF_FFFF_FFFF)
    ensures AddTotals(a, b).Some? ==>
              var t := AddTotals(a, b).value;
              && t.Keys == a.Keys + b.Keys
              && (forall m :: m in t ==> t[m].input == CountIn(a, m, InputOf) + CountIn(b, m, InputOf))
              && (forall m :: m in t ==> t[m].cached == CountIn(a, m, CachedOf) + CountIn(b, m, CachedOf))
              && (forall m :: m in t ==> t[m].output == CountIn(a, m, OutputOf) + CountIn(b, m, OutputOf))
  {
  }

  /** Checked addition keeps the sums. */
  lemma AddedTallies(a: Totals, pa: seq<Producer>, b: Totals, pb: seq<Producer>)
    requires Tallied(a, pa) && Tallied(b, pb) && AddTotals(a, b).Some?
    ensures Tallied(AddTotals(a, b).value, pa + pb)
  {
    AddedByCount(a, b);
    JoinTallies(a, pa, b, pb, AddTotals(a, b).value);
  }

  lemma MergeCharge(t: Totals, c: Totals, m: ModelRef, u: Usage)
    ensures Merge(t, Merge(c, map[m := u])) == Charge(Merge(t, c), m, u)
  {
  }

  lemma MergeNothing(t: Totals)
    ensures Merge(t, map[]) == t && Merge(map[], t) == t
  {
  }

  lemma MergeOne(t: Totals, m: ModelRef, u: Usage)
    ensures Merge(t, map[m := u]) == Charge(t, m, u)
  {
  }

  lemma MergeAssociates(a: Totals, b: Totals, c: Totals)
    ensures Merge(a, Merge(b, c)) == Merge(Merge(a, b), c)
  {
  }

  /** Without overflow, adding the facts' contribution is charging them one by one. */
  lemma {:induction false} FactsCharge(t: Totals, facts: seq<Fact>)
    requires FactsContribution(facts).Some?
    ensures Merge(t, FactsContribution(facts).value) == ChargeFacts(t, facts)
  {
    if |facts| == 0 {
      MergeNothing(t);
    } else {
      FactsCharge(t, facts[..|facts| - 1]);
      var last := facts[|facts| - 1];
      if last.usage.Some? {
        MergeCharge(t, FactsContribution(facts[..|facts| - 1]).value, last.model, last.usage.value);
      }
    }
  }

  /** Without overflow, adding an ending's contribution is charging its producers. */
  lemma EndingCharges(t: Totals, e: Ending)
    requires EndingContribution(e).Some?
    ensures Merge(t, EndingContribution(e).value) == EndingUsage(t, e)
  {
    var u := if ProducedUsage(e.assistant).Some? then ProducedUsage(e.assistant) else e.usage;
    var facts := CarriedFacts(e.carrier);
    MergeAssociates(t, UsageContribution(u), FactsContribution(facts).value);
    MergeNothing(t);
    if u.Some? {
      MergeOne(t, u.value.0, u.value.1);
    }
    FactsCharge(Merge(t, UsageContribution(u)), facts);
  }

  // ---- Snapshots ------------------------------------------------------------------------

  /** The registers and entries of one Session with the register revisions: what storage
      holds, or what a coordinator last read of it. */
  datatype Snapshot = Snapshot(g: Graph, session: nat, ops: map<OpId, nat>)

  /** A later state of the same storage: revisions only grow, a register whose revision
      stands is unchanged, and with the Session register stand the log and the Operations. */
  predicate Follows(v: Snapshot, s: Snapshot) {
    && v.ops.Keys == v.g.ops.Keys && s.ops.Keys == s.g.ops.Keys
    && v.session <= s.session && v.g.log <= s.g.log
    && (v.session == s.session ==> v.g.session == s.g.session && v.g.log == s.g.log && v.g.ops.Keys == s.g.ops.Keys)
    && forall o :: o in v.g.ops ==> o in s.g.ops && v.ops[o] <= s.ops[o] && (v.ops[o] == s.ops[o] ==> v.g.ops[o] == s.g.ops[o])
  }

  /** However many transactions of whichever writers pass, a snapshot stays one. */
  lemma FollowsOn(a: Snapshot, b: Snapshot, c: Snapshot)
    requires Follows(a, b) && Follows(b, c)
    ensures Follows(a, c)
  {
    forall o | o in a.g.ops
      ensures o in c.g.ops && a.ops[o] <= c.ops[o] && (a.ops[o] == c.ops[o] ==> a.g.ops[o] == c.g.ops[o])
    {
      assert o in b.g.ops;
    }
  }

  /** The revisions a transaction compares: of the Operation it rewrites, and of the Session
      register when it writes entries. */
  predicate OpMatches(view: Snapshot, s: Snapshot, o: OpId) {
    o in view.ops && o in s.ops && view.ops[o] == s.ops[o]
  }

  predicate Matches(view: Snapshot, s: Snapshot, o: OpId) {
    view.session == s.session && OpMatches(view, s, o)
  }

  /** A comparison passes only on the register the view holds, and fails only when some
      transaction wrote since. */
  lemma ComparisonDecides(view: Snapshot, s: Snapshot, o: OpId)
    requires Follows(view, s) && o in view.g.ops
    ensures OpMatches(view, s, o) ==> o in s.g.ops && view.g.ops[o] == s.g.ops[o]
    ensures !OpMatches(view, s, o) ==> o in s.ops && view.ops[o] < s.ops[o]
    ensures !Matches(view, s, o) ==> view.session < s.session || (o in s.ops && view.ops[o] < s.ops[o])
  {
  }

  /** A commit whose comparison passed acts on exactly the records it was decided on. */
  lemma CommitsWhatItSaw(view: Snapshot, s: Snapshot, o: OpId)
    requires Follows(view, s) && Matches(view, s, o) && o in view.g.ops
    ensures view.g.session == s.g.session && view.g.log == s.g.log && view.g.ops[o] == s.g.ops[o]
    ensures forall cut, id :: RebuiltBoundary(view.g.log, cut, id) == RebuiltBoundary(s.g.log, cut, id)
  {
  }

  /** The view adopted after a commit: the Session register, the entries and the one
      Operation register the transaction wrote. */
  function Adopted(view: Snapshot, s: Snapshot, o: OpId): Snapshot
    requires o in s.g.ops && o in s.ops
  {
    Snapshot(Graph(s.g.session, view.g.ops[o := s.g.ops[o]], s.g.log), s.session, view.ops[o := s.ops[o]])
  }

  /** The adopted view is again a snapshot of the storage it was written to. */
  lemma AdoptionFollows(view: Snapshot, before: Snapshot, s: Snapshot, o: OpId)
    requires Follows(view, before) && Matches(view, before, o) && Follows(before, s) && o in s.g.ops
    requires s.g.ops.Keys == before.g.ops.Keys
    ensures Follows(Adopted(view, s, o), s)
  {
    FollowsOn(view, before, s);
  }

  /** What became of a transaction: a violated precondition outranks a stale view, and an
      overflowing total aborts what neither stopped. */
  datatype Verdict = Committed | Existing | Rejected | Raced | Overflowed

  function Judge(semantic: bool, current: bool, fits: bool): (v: Verdict)
    ensures v == Rejected <==> !semantic
    ensures v == Raced <==> semantic && !current
    ensures v == Overflowed <==> semantic && current && !fits
    ensures v == Committed <==> semantic && current && fits
  {
    if !semantic then Rejected else if !current then Raced else if !fits then Overflowed else Committed
  }

  /** Both totals take this contribution. */
  predicate TotalsFit(g: Graph, o: OpId, contribution: Option<Totals>)
    requires o in g.ops
  {
    contribution.Some? && AddTotals(g.ops[o].usage, contribution.value).Some? && AddTotals(g.session.usage, contribution.value).Some?
  }

  /** One settled model effect, as its result transaction publishes it. */
  datatype EffectOutcome =
    | ConversationOutput(assistant: Option<Produced>, signal: Option<EntryId>)
    | MaintenanceOutput
    | TerminalOutput(ending: Ending)

  function OutcomeContribution(out: EffectOutcome): Option<Totals> {
    match out
    case ConversationOutput(a, _) => Some(UsageContribution(ProducedUsage(a)))
    case MaintenanceOutput => Some(map[])
    case TerminalOutput(e) => EndingContribution(e)
  }

  /** The committed intent a result names, or the quiet Operation an outer terminal needs. */
  predicate ResultExpected(g: Graph, o: OpId, intent: Option<EntryId>, out: EffectOutcome) {
    && IsRunning(g, o)
    && (if intent.Some? then IsModelEffect(g.ops[o].active) && g.ops[o].active.value.result == intent.value
        else g.ops[o].active.None?)
    && (out.ConversationOutput? ==> intent.Some? && g.ops[o].active.value.ConversationEffect?)
    && (out.MaintenanceOutput? ==> intent.Some? && g.ops[o].active.value.MaintenanceEffect?)
  }

  function AfterOutcome(g: Graph, o: OpId, out: EffectOutcome): Option<Graph>
    requires IsRunning(g, o)
  {
    match out
    case ConversationOutput(a, signal) => CommitModelResult(g, o, a, signal)
    case MaintenanceOutput => CommitMaintenanceResult(g, o)
    case TerminalOutput(e) => Some(Settle(g, o, e))
  }

  // ---- Readable results -----------------------------------------------------------------------

  /** The call result a transaction writes, behind its tool intent or from a quiet Operation. */
  function CallResult(g: Graph, o: OpId, c: CallId, out: Outcome, fromIntent: bool): Option<Graph> {
    if fromIntent then CommitExecuted(g, o, c, out.result, out.text, out.knowledge) else CommitImmediate(g, o, c, out)
  }

  /** The outcome as recorded: an executed call carries its intent's selection. */
  function Recorded(op: Operation, out: Outcome, fromIntent: bool): Outcome {
    if fromIntent && op.active.Some? && op.active.value.ToolEffect?
    then Outcome(out.result, out.text, out.knowledge, true, op.active.value.hooks)
    else out
  }

  /** The hook result a transaction writes under its intent's reservation. */
  function HookExpected(g: Graph, o: OpId, result: EntryId): bool {
    IsRunning(g, o) && g.ops[o].active.Some? && IsHookEffect(g.ops[o].active.value) && g.ops[o].active.value.result == result
  }

  /** What one maintenance publication writes: the interruption that won its hold, the
      checkpoint, and a manual procedure's success. */
  datatype Publication =
    | Interrupting(ending: Ending)
    | Checkpointing(plan: Plan, carrier: Carrier)
    | CheckpointingManual(plan: Plan, carrier: Carrier, settlement: EntryId, signal: EntryId)
    | NothingManual(ending: Ending)

  function ManualSuccess(settlement: EntryId, signal: EntryId): Ending {
    Ending(Success, "", None, None, false, None, signal, settlement)
  }

  function AfterPublication(g: Graph, o: OpId, p: Publication): Graph
    requires IsRunning(g, o)
  {
    match p
    case Interrupting(e) => Settle(g, o, e)
    case NothingManual(e) => Settle(g, o, e)
    case Checkpointing(plan, carrier) => CommitCheckpoint(g, o, plan, carrier).value
    case CheckpointingManual(plan, carrier, settlement, signal) =>
      Settle(CommitCheckpoint(g, o, plan, carrier).value, o, ManualSuccess(settlement, signal))
  }

  function PublicationContribution(p: Publication): Option<Totals> {
    match p
    case Interrupting(e) => EndingContribution(e)
    case NothingManual(e) => EndingContribution(e)
    case Checkpointing(_, carrier) => FactsContribution(carrier.facts)
    case CheckpointingManual(_, carrier, _, _) => FactsContribution(carrier.facts)
  }

  /** Nothing to add never overflows. */
  lemma NothingFits(t: Totals)
    ensures AddTotals(t, map[]) == Some(t)
  {
    MergeNothing(t);
  }

  lemma ProducedCharges(t: Totals, a: Option<Produced>)
    ensures Merge(t, UsageContribution(ProducedUsage(a))) == ChargeProduced(t, a)
  {
    if ProducedUsage(a).Some? {
      MergeOne(t, a.value.source, a.value.usage.value);
    } else {
      MergeNothing(t);
    }
  }
}
