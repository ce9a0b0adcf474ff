/** What holds of a driven Session between any two steps, beyond the validator's
    verdict: the driver's memory agrees with the durable records. */
module Discipline {
  import opened Records
  import opened Validator
  import opened Transactions
  import opened LogLemmas
  import opened LogFacts
  import opened Appends
  import opened Settling
  import opened Commits
  import opened View
  import opened Driver

  ghost predicate NoHookResults(log: seq<Entry>, o: OpId, b: Binding) {
    forall i :: 0 <= i < |log| ==> !IsHookResult(log[i], o, b)
  }

  /** A compact Operation runs no conversation: it publishes no call and runs no hook. */
  ghost predicate CompactQuiet(log: seq<Entry>, o: OpId, op: Operation) {
    op.admission.kind == CompactKind ==>
      op.pending == [] && op.request.None? &&
      forall i :: 0 <= i < |log| && Owned(log[i], o) ==> !log[i].body.HookResult? && !log[i].body.Assistant?
  }

  ghost predicate IdleOk(log: seq<Entry>, o: OpId, op: Operation) {
    && op.active.None?
    && (op.pending == [] ==> op.request.None?)
    && forall p :: p in op.pending ==> NoHookResults(log, o, ForCall(p.call))
  }

  /** Evidence recorded for a round names only hooks that already contributed. */
  ghost predicate NamedWithin(log: seq<Entry>, o: OpId, f: Frame)
    requires f.Rounding? && f.done <= |f.plan|
  {
    forall i, h :: 0 <= i < |log| && Names(log[i], o, f.request, h) ==> h in Contributed(f)
  }

  ghost predicate RoundLogOk(session: Session, log: seq<Entry>, o: OpId, f: Frame)
    requires f.Rounding?
  {
    && DistinctPlan(f.plan) && f.done <= |f.plan|
    && f.checkpoint == session.checkpoint && RefsResolve(log, f.checkpoint, f.boundary)
    && !Answered(log, o, f.request)
    && NamedWithin(log, o, f)
    && (!f.stopped ==> ChainIntact(log, o, ForRequest(f.request)) &&
                       HooksOf(log, o, ForRequest(f.request)) == Effectful(f.plan[..f.done]))
  }

  predicate RoundEffectOk(op: Operation, f: Frame, facts: seq<Fact>)
    requires f.Rounding? && f.done <= |f.plan|
  {
    op.active.Some? ==>
      && !f.stopped
      && match op.active.value
         case RequestHookEffect(_, r, hook, ev) =>
           NextHook(f, true) && r == f.request && hook == f.plan[f.done].id && ev == RoundEvidence(f)
         case MaintenanceEffect(_, p, _) => f.done == |f.plan| && |facts| > 0 && facts[|facts| - 1].request == p
         case ConversationEffect(_, r, _, ev) => f.done == |f.plan| && r == f.request && ev == RoundEvidence(f)
         case _ => false
  }

  ghost predicate RoundOk(session: Session, log: seq<Entry>, o: OpId, op: Operation, f: Frame, facts: seq<Fact>)
    requires f.Rounding?
  {
    && op.admission.kind == MessageKind && op.pending == []
    && RoundLogOk(session, log, o, f)
    && (op.request.Some? ==> op.request.value.id == f.request && op.request.value.boundary == f.boundary)
    && (op.request.None? ==> NoHookResults(log, o, ForRequest(f.request)))
    && RoundEffectOk(op, f, facts)
  }

  ghost predicate ChainLogOk(log: seq<Entry>, o: OpId, f: Frame)
    requires f.Chaining?
  {
    && DistinctPlan(f.plan) && f.done <= |f.plan|
    && SucceededHooks(log, o, f.call) == Effectful(f.plan[..f.done])
    && (f.broken.None? ==> ChainIntact(log, o, ForCall(f.call)) &&
                           HooksOf(log, o, ForCall(f.call)) == Effectful(f.plan[..f.done]))
    && (f.broken.Some? ==>
          forall i :: 0 <= i < |log| && IsHookResult(log[i], o, ForCall(f.call)) ==>
                        log[i].body.outcome == HookSucceeded || log[i].body.outcome == f.broken.value)
  }

  predicate ChainEffectOk(op: Operation, f: Frame)
    requires f.Chaining? && f.done <= |f.plan|
  {
    op.active.Some? ==>
      && f.broken.None?
      && match op.active.value
         case CallHookEffect(_, c, hook) => NextHook(f, true) && c == f.call && hook == f.plan[f.done].id
         case ToolEffect(_, c, hooks) => f.done == |f.plan| && c == f.call && hooks == Contributed(f)
         case _ => false
  }

  ghost predicate ChainOk(log: seq<Entry>, o: OpId, op: Operation, f: Frame)
    requires f.Chaining?
  {
    && op.admission.kind == MessageKind && |op.pending| > 0 && op.pending[0].call == f.call
    && ChainLogOk(log, o, f)
    && ChainEffectOk(op, f)
    && forall p :: p in op.pending[1..] ==> NoHookResults(log, o, ForCall(p.call))
  }

  ghost predicate ManualOk(session: Session, log: seq<Entry>, op: Operation, f: Frame, facts: seq<Fact>)
    requires f.Manual?
  {
    && op.admission.kind == CompactKind && f.checkpoint == session.checkpoint
    && (f.tail.Some? ==> RefsResolve(log, f.checkpoint, f.tail.value))
    && (op.active.Some? ==>
          op.active.value.MaintenanceEffect? && |facts| > 0 && facts[|facts| - 1].request == op.active.value.request)
  }

  ghost predicate FrameOk(session: Session, log: seq<Entry>, o: OpId, op: Operation, f: Frame, facts: seq<Fact>) {
    match f
    case Idle => IdleOk(log, o, op) && CompactQuiet(log, o, op)
    case Rounding(_, _, _, _, _, _) => RoundOk(session, log, o, op, f, facts)
    case Chaining(_, _, _, _) => ChainOk(log, o, op, f)
    case Manual(_, _) => ManualOk(session, log, op, f, facts) && CompactQuiet(log, o, op)
    case Lost => facts == [] && (op.active.Some? ==> Unnamed(log, o, op.active.value))
  }

  ghost predicate DriverOk(s: Sys) {
    && (s.g.session.current.None? ==> (s.frame == Idle || s.frame == Lost) && s.facts == [])
    && (s.g.session.current.Some? ==>
          && Driving(s)
          && FrameOk(s.g.session, s.g.log, Current(s), Op(s), s.frame, s.facts)
          && FactsFit(s.g.log, Current(s), s.facts))
  }

  /** The invariant of every reachable Session. */
  ghost predicate Inv(s: Sys) {
    Accepted(s.g) && DriverOk(s)
  }

  // ---- Plans ------------------------------------------------------------------------

  lemma {:induction false} InEffectful(plan: seq<Planned>, h: HookId)
    ensures h in Effectful(plan) <==> exists i :: 0 <= i < |plan| && plan[i].effectful && plan[i].id == h
  {
    if |plan| > 0 {
      var n := |plan| - 1;
      InEffectful(plan[..n], h);
      if plan[n].effectful && plan[n].id == h {
        assert h in Effectful(plan);
      } else if i :| 0 <= i < |plan| && plan[i].effectful && plan[i].id == h {
        assert plan[..n][i].id == h && plan[..n][i].effectful;
      }
      if h in Effectful(plan[..n]) {
        var i :| 0 <= i < n && plan[..n][i].effectful && plan[..n][i].id == h;
        assert plan[i].effectful && plan[i].id == h;
      }
    }
  }

  lemma {:induction false} BackedPlan(plan: seq<Planned>, results: seq<HookId>)
    requires forall i :: 0 <= i < |plan| ==> (plan[i].id in results <==> plan[i].effectful)
    ensures Backed(Ids(plan), results) == Effectful(plan)
  {
    if |plan| > 0 {
      var n := |plan| - 1;
      BackedPlan(plan[..n], results);
      assert Ids(plan) == Ids(plan[..n]) + [plan[n].id];
      BackedConcat(Ids(plan[..n]), [plan[n].id], results);
      assert Backed([plan[n].id], results) == if plan[n].effectful then [plan[n].id] else [] by {
        assert [plan[n].id][1..] == [];
      }
    }
  }

  /** The contributions of a plan reconcile with the results of its effectful hooks:
      pure contributions stay informational. */
  lemma PlanReconciles(plan: seq<Planned>)
    requires DistinctPlan(plan)
    ensures Reconciles(Ids(plan), Effectful(plan))
  {
    forall i | 0 <= i < |plan| ensures plan[i].id in Effectful(plan) <==> plan[i].effectful {
      InEffectful(plan, plan[i].id);
    }
    BackedPlan(plan, Effectful(plan));
  }

  lemma PrefixReconciles(plan: seq<Planned>, done: nat)
    requires DistinctPlan(plan) && done <= |plan|
    ensures Reconciles(Ids(plan[..done]), Effectful(plan[..done]))
  {
    PlanReconciles(plan[..done]);
  }

  /** The next planned hook has not run and is named by no contribution. */
  lemma NextIsNew(plan: seq<Planned>, done: nat)
    requires DistinctPlan(plan) && done < |plan|
    ensures plan[done].id !in Ids(plan[..done]) && plan[done].id !in Effectful(plan[..done])
  {
    InEffectful(plan[..done], plan[done].id);
  }

  lemma EffectfulStep(plan: seq<Planned>, done: nat)
    requires done < |plan|
    ensures Effectful(plan[..done + 1]) == Effectful(plan[..done]) + if plan[done].effectful then [plan[done].id] else []
    ensures Ids(plan[..done + 1]) == Ids(plan[..done]) + [plan[done].id]
  {
    assert plan[..done + 1][..done] == plan[..done];
  }

  // ---- Projection references -----------------------------------------------------------

  /** The references a request boundary freezes always resolve. */
  lemma ProjectedResolves(g: Graph)
    requires Accepted(g) && ProjectedBoundary(g.log, g.session.checkpoint).Some?
    ensures RefsResolve(g.log, g.session.checkpoint, ProjectedBoundary(g.log, g.session.checkpoint).value)
  {
    var log, checkpoint := g.log, g.session.checkpoint;
    var cut := Cutoff(log, checkpoint);
    var newest := NewestMessage(log, cut);
    if checkpoint.None? {
      var b := NewestMessageIs(log, -1);
      assert RefsAt(log, None, newest.value, b);
    } else {
      var c := NamedCheckpoint(g);
      var t := CheckpointTarget(g, c);
      assert cut == t;
      if newest.Some? {
        var b := NewestMessageIs(log, cut);
        assert CoveredBelow(log, log[c].body.boundary, b);
        assert CheckpointRefAt(log, checkpoint.value, b, c);
        assert RefsAt(log, checkpoint, newest.value, b);
      } else {
        assert CheckpointRefAt(log, checkpoint.value, c, c);
        assert RefsAt(log, checkpoint, checkpoint.value, c);
      }
    }
  }

  lemma NamedCheckpoint(g: Graph) returns (c: nat)
    requires Accepted(g) && g.session.checkpoint.Some?
    ensures c < |g.log| && g.log[c].body.Checkpoint? && g.log[c].id == g.session.checkpoint.value
    ensures c == PositionOf(g.log, g.session.checkpoint.value)
  {
    var i :| 0 <= i < |g.log| && g.log[i].id == g.session.checkpoint.value && g.log[i].body.Checkpoint?;
    c := i;
    var p := PositionOf(g.log, g.session.checkpoint.value);
    assert p >= 0;
    UniqueIds(g.session.fork, Admissions(g.ops), g.log, p, c);
  }

  /** A checkpoint's boundary names exactly one entry, strictly before it. */
  lemma CheckpointTarget(g: Graph, c: nat) returns (t: nat)
    requires Accepted(g) && c < |g.log| && g.log[c].body.Checkpoint?
    ensures t < c && g.log[t].id == g.log[c].body.boundary && t == PositionOf(g.log, g.log[c].body.boundary)
    ensures SafeCut(g.log[..c], t)
  {
    hide LogConsistent, OperationsAgree, SessionAgrees, UsageAgrees, OwnedFits, CopiedFits;
    assert Fits(g.session.fork, Admissions(g.ops), g.log[..c], g.log[c]);
    var b :| 0 <= b < |g.log[..c]| && g.log[..c][b].id == g.log[c].body.boundary && SafeCut(g.log[..c], b);
    t := b;
    var p := PositionOf(g.log, g.log[c].body.boundary);
    assert g.log[t].id == g.log[c].body.boundary;
    assert p >= 0;
    UniqueIds(g.session.fork, Admissions(g.ops), g.log, p, t);
  }

  // ---- Fresh requests ------------------------------------------------------------------

  ghost predicate Unmentioned(log: seq<Entry>, r: RequestId) {
    forall i :: 0 <= i < |log| ==> !Mentions(log[i].body, r)
  }

  /** A request no entry mentions is open: unanswered, without hooks, evidence or facts. */
  lemma UnmentionedIsOpen(log: seq<Entry>, o: OpId, r: RequestId)
    requires Unmentioned(log, r)
    ensures NoHookResults(log, o, ForRequest(r)) && !Answered(log, o, r) && ChainIntact(log, o, ForRequest(r))
    ensures HooksOf(log, o, ForRequest(r)) == [] && HookEntriesOf(log, o, ForRequest(r)) == []
    ensures !ProducerUsed(log, o, r)
    ensures forall i, h :: 0 <= i < |log| ==> !Names(log[i], o, r, h)
  {
    forall i | 0 <= i < |log| ensures !IsHookResult(log[i], o, ForRequest(r)) {
      assert !Mentions(log[i].body, r);
    }
    NoHooks(log, o, ForRequest(r));
  }

  // ---- Hooks of calls --------------------------------------------------------------------

  lemma {:induction false} PublishedGrows(log: seq<Entry>, n: nat, o: OpId, p: Pending)
    requires n <= |log| && p in Published(log[..n], o)
    ensures p in Published(log, o)
    decreases |log| - n
  {
    if n == |log| {
      assert log[..n] == log;
    } else {
      assert log[..n + 1] == log[..n] + [log[n]];
      Snoc(log[..n], log[n], o);
      PublishedGrows(log, n + 1, o, p);
    }
  }

  /** Hooks ran only for calls the Operation had published. */
  lemma HooksForPublished(fork: bool, adm: map<OpId, Admission>, log: seq<Entry>, o: OpId, c: CallId, i: int)
    requires LogFits(fork, adm, log) && 0 <= i < |log| && IsHookResult(log[i], o, ForCall(c))
    ensures PublishesCall(log, o, c)
  {
    assert Fits(fork, adm, log[..i], log[i]);
    var p: nat :| RunsAsFirstPending(log[..i], o, c, p);
    var x := Published(log[..i], o)[p];
    PublishedGrows(log, i, o, x);
    var a, k := PublishedBy(log, o, x);
  }

  lemma UnpublishedHasNoHooks(fork: bool, adm: map<OpId, Admission>, log: seq<Entry>, o: OpId, c: CallId)
    requires LogFits(fork, adm, log)
    requires !PublishesCall(log, o, c)
    ensures NoHookResults(log, o, ForCall(c))
  {
    forall i | 0 <= i < |log| && IsHookResult(log[i], o, ForCall(c)) ensures false {
      HooksForPublished(fork, adm, log, o, c, i);
    }
  }

  lemma PendingDistinct(log: seq<Entry>, o: OpId)
    requires LogConsistent(log)
    ensures DistinctCalls(Unresolved(Published(log, o), log, o))
  {
    PublishedDistinct(log, o);
    UnresolvedDistinct(Published(log, o), log, o);
  }
}
