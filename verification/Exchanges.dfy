/** In every reachable Session the projected view opens exactly the pending calls, so
    at a request boundary it holds complete tool exchanges only. */
module Exchanges {
  import opened Records
  import opened Validator
  import opened Transactions
  import opened LogLemmas
  import opened Growth
  import opened Appends
  import opened Commits
  import opened View
  import opened Driver
  import opened Discipline
  import opened Shape
  import opened History
  import opened Projection
  import opened Pairing

  /** The calls an Operation published and no result of this log answers. */
  ghost function OpenSet(log: seq<Entry>, o: OpId): set<CallId> {
    set p | p in Published(log, o) && ResultCount(log, o, p.call) == 0 :: p.call
  }

  ghost predicate ViewOpens(view: seq<Message>, calls: set<CallId>) {
    WellOpened(view) && Outstanding(view).value.Keys == calls
  }

  /** The calls the current Operation has yet to settle. */
  ghost function Unsettled(g: Graph): set<CallId> {
    if g.session.current.Some? then OpenSet(g.log, g.session.current.value) else {}
  }

  /** No exchange was open at any input. */
  ghost predicate InputsPaired(log: seq<Entry>) {
    forall i :: 0 <= i < |log| && log[i].body.Input? ==> Paired(Project(log[..i], NewestCheckpoint(log[..i])))
  }

  ghost predicate Exchanging(g: Graph) {
    ViewOpens(Project(g.log, g.session.checkpoint), Unsettled(g)) && InputsPaired(g.log)
  }

  // ---- One entry -------------------------------------------------------------------

  lemma AppendMessage(view: seq<Message>, m: Message)
    ensures Outstanding(view + [m]) == if Outstanding(view).None? then None else Absorb(Outstanding(view).value, |view|, m)
  {
    assert (view + [m])[..|view|] == view;
  }

  /** Another entry's position in a log that extends this one. */
  ghost predicate Continues(l: seq<Entry>, e: Entry, log': seq<Entry>) {
    |l| < |log'| && log'[..|l|] == l && log'[|l|] == e
  }

  ghost predicate Ordered(log: seq<Entry>) {
    LogConsistent(log) && ResultsFollow(log) && DistinctIds(log)
  }

  lemma NewCallsUnanswered(l: seq<Entry>, e: Entry, log': seq<Entry>, o: OpId, k: int)
    requires Continues(l, e, log') && Ordered(log') && Owned(e, o) && e.body.Assistant? && 0 <= k < |e.body.calls|
    ensures ResultCount(l, o, e.body.calls[k].id) == 0
    ensures forall p :: p in Published(l, o) ==> p.call != e.body.calls[k].id
  {
    var c := e.body.calls[k].id;
    assert IsReservation(log', |l|, k);
    forall p | p in Published(l, o) ensures p.call != c {
      var i, x := PublishedBy(l, o, p);
      assert IsReservation(log', i, x) && log'[i] == l[i];
    }
    NoEarlierResult(l, e, log', o, k);
  }

  lemma NoEarlierResult(l: seq<Entry>, e: Entry, log': seq<Entry>, o: OpId, k: int)
    requires Continues(l, e, log') && Ordered(log') && Owned(e, o) && e.body.Assistant? && 0 <= k < |e.body.calls|
    ensures ResultCount(l, o, e.body.calls[k].id) == 0
  {
    var c := e.body.calls[k].id;
    assert IsReservation(log', |l|, k);
    forall j | 0 <= j < |l| ensures !AnswersCall(l[j], o, c) {
      assert l[j] == log'[j];
      if log'[j].body.ToolResult? {
        assert ResultAnswers(log', log'[j]);
        var i, x :| IsReservation(log', i, x) && Reserved(log', i, x) == log'[j].id && Settles(log'[j], log'[i], x);
        assert i < j;
      }
    }
    CountWitness(l, o, c);
  }

  lemma OpenSetPublish(l: seq<Entry>, e: Entry, o: OpId)
    requires Owned(e, o) && e.body.Assistant?
    requires forall k :: 0 <= k < |e.body.calls| ==> ResultCount(l, o, e.body.calls[k].id) == 0
    ensures OpenSet(l + [e], o) == OpenSet(l, o) + set c | c in CallIds(e.body.calls)
  {
    Snoc(l, e, o);
    forall c: CallId ensures ResultCount(l + [e], o, c) == ResultCount(l, o, c) {
      SnocCount(l, e, o, c);
    }
    var added := CallsOf(e, o);
    forall c | c in CallIds(e.body.calls) ensures c in OpenSet(l + [e], o) {
      var k :| 0 <= k < |e.body.calls| && CallIds(e.body.calls)[k] == c;
      assert added[k] in Published(l + [e], o) && added[k].call == c;
    }
    forall c | c in OpenSet(l, o) ensures c in OpenSet(l + [e], o) {
      var p :| p in Published(l, o) && ResultCount(l, o, p.call) == 0 && p.call == c;
      assert p in Published(l + [e], o);
    }
    forall c | c in OpenSet(l + [e], o) ensures c in OpenSet(l, o) || c in CallIds(e.body.calls) {
      var p :| p in Published(l + [e], o) && ResultCount(l + [e], o, p.call) == 0 && p.call == c;
      if p !in Published(l, o) {
        var k :| 0 <= k < |added| && added[k] == p;
        assert CallIds(e.body.calls)[k] == c;
      }
    }
  }

  lemma OpensCalls(l: seq<Entry>, e: Entry, log': seq<Entry>, o: OpId, view: seq<Message>)
    requires Continues(l, e, log') && Ordered(log') && Owned(e, o) && e.body.Assistant? && ViewOpens(view, OpenSet(l, o))
    ensures ViewOpens(view + ProjectEntry(e.body), OpenSet(l + [e], o))
  {
    hide Ordered, ViewOpens;
    var ids := CallIds(e.body.calls);
    forall k | 0 <= k < |ids| ensures ids[k] !in OpenSet(l, o) && ResultCount(l, o, e.body.calls[k].id) == 0 {
      NewCallsUnanswered(l, e, log', o, k);
    }
    OpenSetPublish(l, e, o);
    hide OpenSet;
    DistinctNewCalls(l, e, log');
    ViewPublishes(view, e.body.text, ids, OpenSet(l, o));
  }

  lemma ViewPublishes(view: seq<Message>, text: Text, ids: seq<CallId>, calls: set<CallId>)
    requires ViewOpens(view, calls) && forall k :: 0 <= k < |ids| ==> ids[k] !in calls
    requires forall i, j :: 0 <= i < j < |ids| ==> ids[i] != ids[j]
    ensures ViewOpens(view + [AssistantMessage(text, ids)], calls + set c | c in ids)
  {
    var out := Outstanding(view).value;
    CanOpen(out, |view|, ids);
    OpenedBy(out, |view|, ids);
    AppendMessage(view, AssistantMessage(text, ids));
  }

  lemma DistinctNewCalls(l: seq<Entry>, e: Entry, log': seq<Entry>)
    requires Continues(l, e, log') && Ordered(log') && e.body.Assistant?
    ensures forall i, j :: 0 <= i < j < |e.body.calls| ==> e.body.calls[i].id != e.body.calls[j].id
  {
    forall i, j | 0 <= i < j < |e.body.calls| ensures e.body.calls[i].id != e.body.calls[j].id {
      assert IsReservation(log', |l|, i) && IsReservation(log', |l|, j);
    }
  }

  /** A result answers a call that was published before it and not yet answered. */
  lemma AnswersOpenCall(l: seq<Entry>, e: Entry, log': seq<Entry>, o: OpId)
    requires Continues(l, e, log') && Ordered(log') && Owned(e, o) && e.body.ToolResult?
    ensures e.body.answers in OpenSet(l, o)
  {
    assert ResultAnswers(log', log'[|l|]);
    var i, k :| IsReservation(log', i, k) && Reserved(log', i, k) == e.id && Settles(e, log'[i], k);
    assert i < |l| && log'[i] == l[i];
    assert IsReservation(l, i, k);
    InPublished(l, o, i, k);
    var p := Pending(l[i].id, l[i].body.calls[k].id, Reserved(l, i, k));
    forall j | 0 <= j < |l| ensures !AnswersCall(l[j], o, e.body.answers) {
      assert l[j] == log'[j];
      NotAnsweredTwice(log', |l|, j, o);
    }
    CountWitness(l, o, e.body.answers);
    assert p in Published(l, o) && p.call == e.body.answers;
  }

  lemma NotAnsweredTwice(log: seq<Entry>, n: nat, j: nat, o: OpId)
    requires Ordered(log) && j < n < |log| && log[n].body.ToolResult? && Owned(log[n], o)
    ensures !AnswersCall(log[j], o, log[n].body.answers)
  {
    if log[j].body.ToolResult? {
      assert ResultAnswers(log, log[j]) && ResultAnswers(log, log[n]);
      var a, x :| IsReservation(log, a, x) && Reserved(log, a, x) == log[j].id && Settles(log[j], log[a], x);
      var b, y :| IsReservation(log, b, y) && Reserved(log, b, y) == log[n].id && Settles(log[n], log[b], y);
      assert log[j].id != log[n].id;
    }
  }

  lemma OpenSetSettle(l: seq<Entry>, e: Entry, o: OpId)
    requires Owned(e, o) && e.body.ToolResult?
    ensures OpenSet(l + [e], o) == OpenSet(l, o) - {e.body.answers}
  {
    Snoc(l, e, o);
    forall c: CallId ensures ResultCount(l + [e], o, c) == ResultCount(l, o, c) + if c == e.body.answers then 1 else 0 {
      SnocCount(l, e, o, c);
    }
    assert Published(l + [e], o) == Published(l, o);
  }

  lemma SettlesCall(l: seq<Entry>, e: Entry, log': seq<Entry>, o: OpId, view: seq<Message>)
    requires Continues(l, e, log') && Ordered(log') && Owned(e, o) && e.body.ToolResult? && ViewOpens(view, OpenSet(l, o))
    ensures ViewOpens(view + ProjectEntry(e.body), OpenSet(l + [e], o))
  {
    hide Ordered, OpenSet;
    AnswersOpenCall(l, e, log', o);
    OpenSetSettle(l, e, o);
    AppendMessage(view, ToolMessage(e.body.answers, e.body.text));
  }

  lemma KeepsCalls(l: seq<Entry>, e: Entry, o: OpId, view: seq<Message>)
    requires !e.body.Assistant? && !e.body.ToolResult? && ViewOpens(view, OpenSet(l, o))
    ensures ViewOpens(view + ProjectEntry(e.body), OpenSet(l + [e], o))
  {
    Snoc(l, e, o);
    forall c: CallId ensures ResultCount(l + [e], o, c) == ResultCount(l, o, c) {
      SnocCount(l, e, o, c);
    }
    assert Published(l + [e], o) == Published(l, o);
    assert OpenSet(l + [e], o) == OpenSet(l, o);
    if e.body.Input? || e.body.Signal? {
      AppendMessage(view, ProjectEntry(e.body)[0]);
    } else {
      assert view + ProjectEntry(e.body) == view;
    }
  }

  lemma OneEntry(l: seq<Entry>, e: Entry, log': seq<Entry>, o: OpId, view: seq<Message>)
    requires Continues(l, e, log') && Ordered(log') && (Owned(e, o) || !(e.body.Assistant? || e.body.ToolResult?))
    requires ViewOpens(view, OpenSet(l, o))
    ensures ViewOpens(view + ProjectEntry(e.body), OpenSet(l + [e], o))
  {
    hide Ordered, ViewOpens, OpenSet, Continues;
    if e.body.Assistant? {
      OpensCalls(l, e, log', o, view);
    } else if e.body.ToolResult? {
      SettlesCall(l, e, log', o, view);
    } else {
      KeepsCalls(l, e, o, view);
    }
  }

  /** What the entries of one transaction do to the view's open calls. */
  lemma {:induction false} Entries(log: seq<Entry>, es: seq<Entry>, log': seq<Entry>, o: OpId, view: seq<Message>)
    requires Ordered(log') && |log| + |es| <= |log'| && log'[..|log| + |es|] == log + es
    requires forall i :: 0 <= i < |es| ==> Owned(es[i], o) || !(es[i].body.Assistant? || es[i].body.ToolResult?)
    requires ViewOpens(view, OpenSet(log, o))
    ensures ViewOpens(view + Tail(es, -1), OpenSet(log + es, o))
  {
    hide Ordered, ViewOpens, OpenSet;
    if |es| == 0 {
      assert log + es == log && view + Tail(es, -1) == view;
    } else {
      var n := |es| - 1;
      var mid := log + es[..n];
      assert log'[..|mid|] == mid;
      Entries(log, es[..n], log', o, view);
      assert log'[|mid|] == es[n];
      OneEntry(mid, es[n], log', o, view + Tail(es[..n], -1));
      assert log + es == mid + [es[n]];
      assert view + Tail(es, -1) == (view + Tail(es[..n], -1)) + ProjectEntry(es[n].body);
    }
  }

  // ---- Every step ----------------------------------------------------------------------------

  lemma AcceptedOrdered(g: Graph)
    requires Accepted(g) && Disciplined(g)
    ensures Ordered(g.log)
  {
    AcceptedDistinct(g);
  }

  /** A terminal Operation leaves nothing open. */
  lemma TerminalOpensNothing(g: Graph, o: OpId)
    requires Accepted(g) && o in g.ops && g.ops[o].status != Running
    ensures OpenSet(g.log, o) == {}
  {
    assert OperationAgrees(g, o);
    assert forall p :: p in Published(g.log, o) ==> ResultCount(g.log, o, p.call) == 1;
  }

  lemma QuietOpensNothing(g: Graph, o: OpId)
    requires Accepted(g) && IsRunning(g, o) && g.ops[o].pending == []
    ensures OpenSet(g.log, o) == {}
  {
    OnlyRunning(g, o);
    forall p | p in Published(g.log, o) ensures ResultCount(g.log, o, p.call) != 0 {
      InUnresolved(Published(g.log, o), g.log, o, p);
    }
  }

  lemma InputsPairedGrow(log: seq<Entry>, es: seq<Entry>, log': seq<Entry>)
    requires InputsPaired(log) && log' == log + es
    requires forall i :: 0 <= i < |es| && es[i].body.Input? ==> i == 0 && Paired(Project(log, NewestCheckpoint(log)))
    ensures InputsPaired(log')
  {
    forall i | 0 <= i < |log'| && log'[i].body.Input? ensures Paired(Project(log'[..i], NewestCheckpoint(log'[..i]))) {
      if i < |log| {
        assert log'[..i] == log[..i] && log'[i] == log[i];
      } else {
        assert log'[i] == es[i - |log|];
        assert log'[..i] == log;
      }
    }
  }

  lemma RegisterNames(g: Graph)
    requires Accepted(g) && g.session.checkpoint.Some?
    ensures NamesAt(g.log, g.session.checkpoint.value)
  {
  }

  /** Entries of the running Operation, none of them a checkpoint. */
  lemma PlainGrowth(s: Sys, s': Sys, es: seq<Entry>)
    requires Accepted(s.g) && Accepted(s'.g) && Disciplined(s.g) && Disciplined(s'.g) && Exchanging(s.g)
    requires OwnGrowth(s, s', es) && NoCheckpoints(es) && s'.g.session.checkpoint == s.g.session.checkpoint
    ensures Exchanging(s'.g)
  {
    hide Accepted, Disciplined, Ordered, InputsPaired, ViewOpens, OpenSet, NoCheckpoints, ProposalValid, RebuiltPaired;
    var o := Current(s);
    AcceptedOrdered(s'.g);
    assert s'.g.log[..|s.g.log| + |es|] == s.g.log + es;
    Entries(s.g.log, es, s'.g.log, o, Project(s.g.log, s.g.session.checkpoint));
    ArrivalsAfter(s.g, es);
    SettledOpens(s'.g, o);
    InputsPairedGrow(s.g.log, es, s'.g.log);
  }

  /** The view after a transaction of a disciplined Session. */
  lemma ArrivalsAfter(g: Graph, es: seq<Entry>)
    requires Accepted(g) && Disciplined(g) && DistinctIds(g.log + es)
    ensures Project(g.log + es, g.session.checkpoint) == Project(g.log, g.session.checkpoint) + Tail(es, -1)
  {
    hide Accepted, DistinctIds;
    if g.session.checkpoint.Some? {
      RegisterNames(g);
    }
    ArrivalsJoin(g.log, es, g.session.checkpoint);
  }

  lemma SettledOpens(g: Graph, o: OpId)
    requires Accepted(g) && o in g.ops && g.session.current == if g.ops[o].status == Running then Some(o) else None
    ensures Unsettled(g) == OpenSet(g.log, o)
  {
    if g.ops[o].status != Running {
      TerminalOpensNothing(g, o);
    }
  }

  lemma PairedOpens(view: seq<Message>)
    ensures Paired(view) <==> ViewOpens(view, {})
  {
    if ViewOpens(view, {}) {
      assert Outstanding(view).value == map[];
    }
  }

  /** A checkpoint, and whatever settles in its transaction. */
  lemma CheckpointGrowth(s: Sys, s': Sys, es: seq<Entry>)
    requires Inv(s) && Accepted(s.g) && Accepted(s'.g) && Disciplined(s.g) && Disciplined(s'.g) && Exchanging(s.g)
    requires OwnGrowth(s, s', es) && |es| > 0 && es[0].body.Checkpoint?
    ensures Exchanging(s'.g)
  {
    hide Accepted, Disciplined, Ordered, InputsPaired, ViewOpens, OpenSet, Inv, Paired;
    var o := Current(s);
    var e, mid := es[0], s.g.log + [es[0]];
    assert s'.g.log == mid + es[1..];
    AcceptedOrdered(s'.g);
    CheckpointView(s, e, mid, s'.g.log);
    ProcedureOpensNothing(s);
    OpenSetNeutral(s.g.log, e, o);
    assert s'.g.log[..|mid| + |es[1..]|] == mid + es[1..];
    Entries(mid, es[1..], s'.g.log, o, Project(mid, Some(e.id)));
    CheckpointArrivals(s, e, mid, es[1..], s'.g.log);
    SettledOpens(s'.g, o);
    InputsPairedGrow(s.g.log, es, s'.g.log);
  }

  lemma ProcedureOpensNothing(s: Sys)
    requires Inv(s) && InProcedure(s)
    ensures OpenSet(s.g.log, Current(s)) == {}
  {
    hide LogFits, LogConsistent, OperationsAgree, SafeCut;
    QuietOpensNothing(s.g, Current(s));
  }

  lemma OpenSetNeutral(log: seq<Entry>, e: Entry, o: OpId)
    requires e.body.Checkpoint?
    ensures OpenSet(log + [e], o) == OpenSet(log, o)
  {
    SnocNeutral(log, e, o);
  }

  lemma CheckpointView(s: Sys, e: Entry, mid: seq<Entry>, log': seq<Entry>)
    requires Inv(s) && Accepted(s.g) && Disciplined(s.g) && DistinctIds(log') && |mid| <= |log'| && log'[..|mid|] == mid
    requires e.body.Checkpoint? && mid == s.g.log + [e]
    requires InProcedure(s) && ProposalValid(s, e.body.boundary) && RebuiltPaired(s, e.body.messages, e.body.boundary)
    ensures ViewOpens(Project(mid, Some(e.id)), {}) && CutsProject(mid)
  {
    hide Accepted, Inv, DistinctIds, CutsProject, CutsIncrease, Prior, Cutoff, Tail, Outstanding;
    assert log' == mid + log'[|mid|..];
    DistinctPrefix(mid, log'[|mid|..], log');
    var frozen := FrozenIsNewest(s, e.body.boundary);
    NewCheckpointCut(s.g.log, e, frozen, mid);
    CutsGrowCheckpoint(s.g.log, e, frozen, mid);
    TailPastCheckpoint(s.g.log, e, PositionOf(s.g.log, e.body.boundary));
    PairedOpens(Project(mid, Some(e.id)));
  }

  lemma CheckpointArrivals(s: Sys, e: Entry, mid: seq<Entry>, rest: seq<Entry>, log': seq<Entry>)
    requires mid == s.g.log + [e] && log' == mid + rest && DistinctIds(log') && CutsProject(mid) && e.body.Checkpoint?
    ensures Project(log', Some(e.id)) == Project(mid, Some(e.id)) + Tail(rest, -1)
  {
    assert mid[|s.g.log|] == e;
    ArrivalsJoin(mid, rest, Some(e.id));
  }

  lemma AdmissionExchanges(s: Sys, s': Sys, o: OpId, es: seq<Entry>)
    requires Accepted(s.g) && Accepted(s'.g) && Disciplined(s.g) && Disciplined(s'.g) && Exchanging(s.g)
    requires Admits(s, s', o, es)
    ensures Exchanging(s'.g)
  {
    hide Accepted, Disciplined, Ordered, InputsPaired, ViewOpens;
    AcceptedOrdered(s'.g);
    NewOpensNothing(s.g, o);
    PairedOpens(Project(s.g.log, s.g.session.checkpoint));
    assert s'.g.log[..|s.g.log| + |es|] == s.g.log + es;
    Entries(s.g.log, es, s'.g.log, o, Project(s.g.log, s.g.session.checkpoint));
    ArrivalsAfter(s.g, es);
    NewestIsNamed(s.g);
    InputsPairedGrow(s.g.log, es, s'.g.log);
  }

  lemma NewestIsNamed(g: Graph)
    requires Disciplined(g)
    ensures g.session.checkpoint == NewestCheckpoint(g.log)
  {
  }

  lemma NewOpensNothing(g: Graph, o: OpId)
    requires Accepted(g) && o !in g.ops
    ensures OpenSet(g.log, o) == {}
  {
    OwnersAdmitted(g.session.fork, Admissions(g.ops), g.log, o);
    NoEntries(g.log, o);
  }

  /** A background signal opens and settles nothing. */
  lemma CompletionExchanges(s: Sys, s': Sys, e: Entry)
    requires Accepted(s.g) && Accepted(s'.g) && Disciplined(s.g) && Disciplined(s'.g) && Exchanging(s.g) && Signals(s, s', e)
    ensures Exchanging(s'.g)
  {
    hide Accepted, Disciplined, Ordered, InputsPaired;
    AcceptedOrdered(s'.g);
    ArrivalsAfter(s.g, [e]);
    var view := Project(s.g.log, s.g.session.checkpoint);
    SignalTail(e);
    AppendMessage(view, ProjectEntry(e.body)[0]);
    if s.g.session.current.Some? {
      SnocNeutral(s.g.log, e, s.g.session.current.value);
    }
    InputsPairedGrow(s.g.log, [e], s'.g.log);
  }

  lemma SignalTail(e: Entry)
    requires e.body.Signal?
    ensures Tail([e], -1) == ProjectEntry(e.body)
  {
    assert [e][..0] == [];
  }

  /** Every step keeps the view's open calls equal to the unsettled ones. */
  lemma NextExchanges(s: Sys, step: Step)
    requires Inv(s) && Disciplined(s.g) && Exchanging(s.g) && Next(s, step).Some?
    ensures Exchanging(Next(s, step).value.g)
  {
    hide Inv, Disciplined, Exchanging, Next, Admits, OwnGrowth, Signals;
    var s' := Next(s, step).value;
    NextKeeps(s, step);
    NextDisciplined(s, step);
    InvIsAccepted(s);
    InvIsAccepted(s');
    RecordsGrow(s, step);
    if es :| OwnGrowth(s, s', es) {
      OwnGrowthExchanges(s, s', es);
    } else if o, es :| Admits(s, s', o, es) {
      AdmissionExchanges(s, s', o, es);
    } else if e :| Signals(s, s', e) {
      CompletionExchanges(s, s', e);
    } else {
      UnmovedExchanges(s, s');
    }
  }

  lemma OwnGrowthExchanges(s: Sys, s': Sys, es: seq<Entry>)
    requires Inv(s) && Accepted(s.g) && Accepted(s'.g) && Disciplined(s.g) && Disciplined(s'.g) && Exchanging(s.g)
    requires OwnGrowth(s, s', es)
    ensures Exchanging(s'.g)
  {
    hide Inv, Accepted, Disciplined, Exchanging;
    if |es| > 0 && es[0].body.Checkpoint? {
      CheckpointGrowth(s, s', es);
    } else {
      PlainGrowth(s, s', es);
    }
  }

  lemma UnmovedExchanges(s: Sys, s': Sys)
    requires Exchanging(s.g) && (SameRecords(s, s') || exists open :: Opens(s, s', open))
    ensures Exchanging(s'.g)
  {
  }

  /** At every request boundary of any run the projected view holds complete exchanges
      only, although call identities may recur across them. */
  lemma BoundaryViewPaired(s: Sys, r: RequestId, plan: seq<Planned>)
    requires Inv(s) && Exchanging(s.g) && OpenRoundNext(s, r, plan).Some?
    ensures Paired(Project(s.g.log, s.g.session.checkpoint))
  {
    hide LogFits, LogConsistent, OperationsAgree, SafeCut;
    QuietOpensNothing(s.g, Current(s));
    PairedOpens(Project(s.g.log, s.g.session.checkpoint));
  }
}
