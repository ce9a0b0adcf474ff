/** Facts about whole logs that the validator does not check and every reachable
    Session has: serial Operations, inputs that no exchange straddles, and a
    register that names the newest checkpoint, whose cuts only move forward. */
module History {
  import opened Records
  import opened Validator
  import opened Transactions
  import opened LogLemmas
  import opened LogFacts
  import opened Growth
  import opened Commits
  import opened View
  import opened Driver
  import opened Discipline
  import opened Shape

  /** The entries of one Operation form one block; only completion signals fall inside it. */
  ghost predicate Serial(log: seq<Entry>) {
    forall i, j, k :: 0 <= i < j < k < |log| && log[i].owner.Some? && log[i].owner == log[k].owner ==>
                        log[j].owner == log[i].owner || IsCompletion(log[j])
  }

  /** Every call published in this log has its result in it. */
  ghost predicate AllResolved(log: seq<Entry>) {
    forall i, k :: IsReservation(log, i, k) ==> Committed(log, Reserved(log, i, k))
  }

  /** No call is pending at an input. */
  ghost predicate InputsSafe(log: seq<Entry>) {
    forall i :: 0 <= i < |log| && log[i].body.Input? ==> AllResolved(log[..i])
  }

  /** The newest checkpoint of a log. */
  function NewestCheckpoint(log: seq<Entry>): Option<EntryId> {
    if |log| == 0 then None
    else if log[|log| - 1].body.Checkpoint? then Some(log[|log| - 1].id)
    else NewestCheckpoint(log[..|log| - 1])
  }

  /** A checkpoint's cut falls on an entry a projection can name. */
  ghost predicate CutsProject(log: seq<Entry>) {
    forall c :: 0 <= c < |log| && log[c].body.Checkpoint? ==>
      var t := PositionOf(log, log[c].body.boundary);
      0 <= t < c && ConversationBearing(log[t].body)
  }

  /** Later checkpoints cover strictly more. */
  ghost predicate CutsIncrease(log: seq<Entry>) {
    forall c, d :: 0 <= c < d < |log| && log[c].body.Checkpoint? && log[d].body.Checkpoint? ==>
                     PositionOf(log, log[c].body.boundary) < PositionOf(log, log[d].body.boundary)
  }

  /** After an Operation's first entry only its own entries and completions follow. */
  ghost predicate OwnsTail(log: seq<Entry>, o: OpId) {
    forall i, j :: 0 <= i < j < |log| && Owned(log[i], o) ==> Owned(log[j], o) || IsCompletion(log[j])
  }

  /** A result follows the entry that published its call. */
  ghost predicate ResultsFollow(log: seq<Entry>) {
    forall i, k, j :: IsReservation(log, i, k) && 0 <= j < |log| && log[j].id == Reserved(log, i, k) ==> i < j
  }

  ghost predicate Disciplined(g: Graph) {
    && Serial(g.log)
    && ResultsFollow(g.log)
    && InputsSafe(g.log)
    && g.session.checkpoint == NewestCheckpoint(g.log)
    && CutsProject(g.log)
    && CutsIncrease(g.log)
    && (g.session.current.Some? ==> OwnsTail(g.log, g.session.current.value))
  }

  // ---- Serial blocks ---------------------------------------------------------------

  lemma {:induction false} TailGrows(log: seq<Entry>, es: seq<Entry>, o: OpId, log': seq<Entry>)
    requires Serial(log) && OwnsTail(log, o) && AllOwned(es, o) && log' == log + es
    ensures Serial(log') && OwnsTail(log', o)
  {
    assert forall j :: |log| <= j < |log'| ==> Owned(log'[j], o);
    assert forall j :: 0 <= j < |log| ==> log'[j] == log[j];
    forall i, j | 0 <= i < j < |log'| && Owned(log'[i], o) ensures Owned(log'[j], o) || IsCompletion(log'[j]) {
    }
    forall i, j, k | 0 <= i < j < k < |log'| && log'[i].owner.Some? && log'[i].owner == log'[k].owner
      ensures log'[j].owner == log'[i].owner || IsCompletion(log'[j])
    {
      if k >= |log| {
        assert Owned(log'[i], o);
      }
    }
  }

  lemma CompletionSerial(log: seq<Entry>, e: Entry, log': seq<Entry>)
    requires Serial(log) && IsCompletion(e) && e.owner.None? && log' == log + [e]
    ensures Serial(log')
    ensures forall o :: OwnsTail(log, o) ==> OwnsTail(log', o)
  {
    assert forall j :: 0 <= j < |log| ==> log'[j] == log[j];
  }

  // ---- Resolved calls ----------------------------------------------------------------

  /** With no Operation running, no call is pending anywhere. */
  lemma QuietIsResolved(g: Graph)
    requires Accepted(g) && g.session.current.None?
    ensures AllResolved(g.log)
  {
    forall i, k | IsReservation(g.log, i, k) ensures Committed(g.log, Reserved(g.log, i, k)) {
      if g.log[i].owner.Some? {
        TerminalIsResolved(g, i, k);
      }
    }
  }

  lemma TerminalIsResolved(g: Graph, i: int, k: int)
    requires Accepted(g) && g.session.current.None? && IsReservation(g.log, i, k) && g.log[i].owner.Some?
    ensures Committed(g.log, Reserved(g.log, i, k))
  {
    hide LogConsistent, CopiedFits, OwnedFits;
    var o := g.log[i].owner.value;
    assert o in g.ops by {
      assert Fits(g.session.fork, Admissions(g.ops), g.log[..i], g.log[i]);
      assert OwnedFits(Admissions(g.ops), g.log[..i], g.log[i], o);
      OwnerIsAdmitted(Admissions(g.ops), g.log[..i], g.log[i], o);
    }
    NoneRunning(g, o);
    var p := Pending(g.log[i].id, g.log[i].body.calls[k].id, Reserved(g.log, i, k));
    InPublished(g.log, o, i, k);
    ResultCommitted(g.log, o, p);
  }

  lemma OwnerIsAdmitted(adm: map<OpId, Admission>, log: seq<Entry>, e: Entry, o: OpId)
    requires OwnedFits(adm, log, e, o)
    ensures o in adm
  {
  }

  /** An accepted log's results already have their publisher, so a later entry cannot reserve their identities. */
  lemma ResultsFollowGrow(log: seq<Entry>, es: seq<Entry>, log': seq<Entry>)
    requires LogConsistent(log) && LogConsistent(log') && ResultsFollow(log) && PublishesFirst(es) && log' == log + es
    ensures ResultsFollow(log')
  {
    assert forall j :: 0 <= j < |log| ==> log'[j] == log[j];
    assert forall j :: |log| <= j < |log'| ==> log'[j] == es[j - |log|];
    forall i, k, j | IsReservation(log', i, k) && 0 <= j < |log'| && log'[j].id == Reserved(log', i, k)
      ensures i < j
    {
      assert Settles(log'[j], log'[i], k);
      if j < |log| {
        assert ResultAnswers(log, log[j]);
        var a, b :| IsReservation(log, a, b) && Reserved(log, a, b) == log[j].id && Settles(log[j], log[a], b);
        assert IsReservation(log', a, b) && Reserved(log', a, b) == log'[j].id;
        assert i == a && IsReservation(log, i, k);
      }
    }
  }

  lemma InputsSafeGrow(log: seq<Entry>, es: seq<Entry>, log': seq<Entry>)
    requires InputsSafe(log) && log' == log + es
    requires forall i :: 0 <= i < |es| && es[i].body.Input? ==> AllResolved(log'[..|log| + i])
    ensures InputsSafe(log')
  {
    forall i | 0 <= i < |log'| && log'[i].body.Input? ensures AllResolved(log'[..i]) {
      if i < |log| {
        assert log'[i] == log[i] && log'[..i] == log[..i];
      } else {
        assert log'[i] == es[i - |log|];
      }
    }
  }

  // ---- Checkpoints ----------------------------------------------------------------------

  lemma {:induction false} NewestAfter(log: seq<Entry>, es: seq<Entry>)
    requires NoCheckpoints(es)
    ensures NewestCheckpoint(log + es) == NewestCheckpoint(log)
  {
    if |es| == 0 {
      assert log + es == log;
    } else {
      var n := |es| - 1;
      assert log + es == (log + es[..n]) + [es[n]];
      Prefix(log + es[..n], es[n]);
      NewestAfter(log, es[..n]);
    }
  }

  /** Positions of committed entries never move. */
  lemma {:induction false} PositionStable(log: seq<Entry>, es: seq<Entry>, id: EntryId)
    requires PositionOf(log, id) >= 0
    requires forall i :: 0 <= i < |es| ==> es[i].id != id
    ensures PositionOf(log + es, id) == PositionOf(log, id)
  {
    if |es| == 0 {
      assert log + es == log;
    } else {
      var n := |es| - 1;
      assert log + es == (log + es[..n]) + [es[n]];
      Prefix(log + es[..n], es[n]);
      PositionStable(log, es[..n], id);
    }
  }

  ghost predicate DistinctIds(log: seq<Entry>) {
    forall i, j :: 0 <= i < j < |log| ==> log[i].id != log[j].id
  }

  lemma AcceptedDistinct(g: Graph)
    requires Accepted(g)
    ensures DistinctIds(g.log)
  {
    forall i, j | 0 <= i < j < |g.log| ensures g.log[i].id != g.log[j].id {
      LaterIdDiffers(g.session.fork, Admissions(g.ops), g.log, i, j);
    }
  }

  lemma CutsStable(log: seq<Entry>, es: seq<Entry>, log': seq<Entry>, c: int)
    requires CutsProject(log) && DistinctIds(log') && log' == log + es && 0 <= c < |log| && log[c].body.Checkpoint?
    ensures PositionOf(log', log[c].body.boundary) == PositionOf(log, log[c].body.boundary)
  {
    var id := log[c].body.boundary;
    var t := PositionOf(log, id);
    forall i | 0 <= i < |es| ensures es[i].id != id {
      assert log'[t].id == id && log'[|log| + i] == es[i];
    }
    PositionStable(log, es, id);
  }

  lemma CutsGrowPlain(log: seq<Entry>, es: seq<Entry>, log': seq<Entry>)
    requires CutsProject(log) && CutsIncrease(log) && NoCheckpoints(es) && DistinctIds(log') && log' == log + es
    ensures CutsProject(log') && CutsIncrease(log')
  {
    assert forall c :: |log| <= c < |log'| ==> log'[c] == es[c - |log|];
    forall c | 0 <= c < |log'| && log'[c].body.Checkpoint?
      ensures c < |log| && log'[c] == log[c]
      ensures PositionOf(log', log'[c].body.boundary) == PositionOf(log, log[c].body.boundary)
    {
      assert c < |log|;
      CutsStable(log, es, log', c);
    }
    forall c | 0 <= c < |log'| && log'[c].body.Checkpoint?
      ensures var t := PositionOf(log', log'[c].body.boundary); 0 <= t < c && ConversationBearing(log'[t].body)
    {
      var t := PositionOf(log, log[c].body.boundary);
      assert log'[t] == log[t];
    }
  }

  lemma {:induction false} NewestIsLast(log: seq<Entry>) returns (c: int)
    requires NewestCheckpoint(log).Some?
    ensures 0 <= c < |log| && log[c].body.Checkpoint? && log[c].id == NewestCheckpoint(log).value
    ensures forall d :: c < d < |log| ==> !log[d].body.Checkpoint?
  {
    var n := |log| - 1;
    if log[n].body.Checkpoint? {
      c := n;
    } else {
      c := NewestIsLast(log[..n]);
      assert forall d :: c < d < n ==> log[..n][d] == log[d];
    }
  }

  lemma {:induction false} NoNewest(log: seq<Entry>)
    requires NewestCheckpoint(log).None?
    ensures forall c :: 0 <= c < |log| ==> !log[c].body.Checkpoint?
  {
    if |log| > 0 {
      NoNewest(log[..|log| - 1]);
      assert forall c :: 0 <= c < |log| - 1 ==> log[..|log| - 1][c] == log[c];
    }
  }

  /** A valid proposal cuts strictly after every earlier checkpoint's cut. */
  lemma ProposalCutsLater(log: seq<Entry>, frozen: EntryId, proposed: EntryId, c: int)
    requires DistinctIds(log) && CutsProject(log) && CutsIncrease(log)
    requires CoveredBoundary(log, NewestCheckpoint(log), frozen, proposed)
    requires 0 <= c < |log| && log[c].body.Checkpoint?
    ensures PositionOf(log, log[c].body.boundary) < PositionOf(log, proposed)
  {
    if NewestCheckpoint(log).None? {
      NoNewest(log);
    } else {
      var d := NewestIsLast(log);
      var at := PositionOf(log, log[d].id);
      assert at >= 0 && log[at].id == log[d].id;
      assert at == d;
      assert c <= d;
    }
  }

  lemma CutsGrowCheckpoint(log: seq<Entry>, e: Entry, frozen: EntryId, log': seq<Entry>)
    requires CutsProject(log) && CutsIncrease(log) && DistinctIds(log') && log' == log + [e] && e.body.Checkpoint?
    requires CoveredBoundary(log, NewestCheckpoint(log), frozen, e.body.boundary)
    ensures CutsProject(log') && CutsIncrease(log') && NewestCheckpoint(log') == Some(e.id)
  {
    Prefix(log, e);
    assert forall i :: 0 <= i < |log| ==> log'[i] == log[i];
    assert DistinctIds(log);
    var t := PositionOf(log, e.body.boundary);
    forall i | 0 <= i < |[e]| ensures [e][i].id != e.body.boundary {
      assert log'[t].id == e.body.boundary && log'[|log|] == e;
    }
    PositionStable(log, [e], e.body.boundary);
    assert ConversationBearing(log[t].body) by {
      if NewestCheckpoint(log) == Some(e.body.boundary) {
        var d := NewestIsLast(log);
        assert t == d;
      }
    }
    forall c | 0 <= c < |log| && log[c].body.Checkpoint?
      ensures PositionOf(log', log'[c].body.boundary) == PositionOf(log, log[c].body.boundary)
      ensures PositionOf(log', log'[c].body.boundary) < t
    {
      CutsStable(log, [e], log', c);
      ProposalCutsLater(log, frozen, e.body.boundary, c);
    }
    forall c | 0 <= c < |log'| && log'[c].body.Checkpoint?
      ensures var x := PositionOf(log', log'[c].body.boundary); 0 <= x < c && ConversationBearing(log'[x].body)
    {
      if c < |log| {
        assert log'[c] == log[c];
        var x := PositionOf(log, log[c].body.boundary);
        assert log'[x] == log[x];
      }
    }
  }

  // ---- Every step ---------------------------------------------------------------------------

  lemma FrozenIsNewest(s: Sys, boundary: EntryId) returns (frozen: EntryId)
    requires Inv(s) && InProcedure(s) && ProposalValid(s, boundary)
    ensures CoveredBoundary(s.g.log, s.g.session.checkpoint, frozen, boundary)
  {
    hide Accepted;
    frozen := if s.frame.Rounding? then s.frame.boundary else s.frame.tail.value;
  }

  lemma OwnGrowthDisciplined(s: Sys, s': Sys, es: seq<Entry>)
    requires Inv(s) && Accepted(s'.g) && Disciplined(s.g) && OwnGrowth(s, s', es)
    ensures Disciplined(s'.g)
  {
    hide Accepted, Inv, Serial, OwnsTail, CutsProject, CutsIncrease, InputsSafe, ResultsFollow;
    var log, log' := s.g.log, s'.g.log;
    AcceptedDistinct(s'.g);
    TailGrows(log, es, Current(s), log');
    InputsSafeGrow(log, es, log');
    InvIsAccepted(s);
    OrderGrows(s.g, s'.g, es);
    if |es| > 0 && es[0].body.Checkpoint? {
      var frozen := FrozenIsNewest(s, es[0].body.boundary);
      var mid := log + [es[0]];
      assert log' == mid + es[1..];
      DistinctPrefix(mid, es[1..], log');
      CutsGrowCheckpoint(log, es[0], frozen, mid);
      CutsGrowPlain(mid, es[1..], log');
      NewestAfter(mid, es[1..]);
    } else {
      CutsGrowPlain(log, es, log');
      NewestAfter(log, es);
    }
  }

  lemma OrderGrows(g: Graph, g': Graph, es: seq<Entry>)
    requires Accepted(g) && Accepted(g') && ResultsFollow(g.log) && PublishesFirst(es) && g'.log == g.log + es
    ensures ResultsFollow(g'.log)
  {
    ResultsFollowGrow(g.log, es, g'.log);
  }

  lemma DistinctPrefix(log: seq<Entry>, es: seq<Entry>, log': seq<Entry>)
    requires DistinctIds(log') && log' == log + es
    ensures DistinctIds(log)
  {
    forall i, j | 0 <= i < j < |log| ensures log[i].id != log[j].id {
      assert log'[i].id != log'[j].id;
    }
  }

  lemma NoTail(g: Graph, o: OpId)
    requires Accepted(g) && o !in g.ops
    ensures OwnsTail(g.log, o)
  {
    OwnersAdmitted(g.session.fork, Admissions(g.ops), g.log, o);
  }

  lemma AdmissionDisciplined(s: Sys, s': Sys, o: OpId, es: seq<Entry>)
    requires Inv(s) && Accepted(s'.g) && Disciplined(s.g) && Admits(s, s', o, es)
    ensures Disciplined(s'.g)
  {
    hide Accepted, Serial, OwnsTail, CutsProject, CutsIncrease, InputsSafe, ResultsFollow;
    var log, log' := s.g.log, s'.g.log;
    AcceptedDistinct(s'.g);
    NoTail(s.g, o);
    TailGrows(log, es, o, log');
    QuietIsResolved(s.g);
    assert log'[..|log| + 0] == log;
    InputsSafeGrow(log, es, log');
    OrderGrows(s.g, s'.g, es);
    CutsGrowPlain(log, es, log');
    NewestAfter(log, es);
  }

  lemma CompletionDisciplined(s: Sys, s': Sys, e: Entry)
    requires Accepted(s.g) && Accepted(s'.g) && Disciplined(s.g) && Signals(s, s', e)
    ensures Disciplined(s'.g)
  {
    hide Accepted, Serial, OwnsTail, CutsProject, CutsIncrease, InputsSafe, ResultsFollow;
    AcceptedDistinct(s'.g);
    CompletionSerial(s.g.log, e, s'.g.log);
    InputsSafeGrow(s.g.log, [e], s'.g.log);
    OrderGrows(s.g, s'.g, [e]);
    CutsGrowPlain(s.g.log, [e], s'.g.log);
    NewestAfter(s.g.log, [e]);
  }

  /** Every step keeps the discipline of the whole log. */
  lemma NextDisciplined(s: Sys, step: Step)
    requires Inv(s) && Disciplined(s.g) && Next(s, step).Some?
    ensures Disciplined(Next(s, step).value.g)
  {
    hide Inv, Disciplined, Next, Admits, OwnGrowth, Signals;
    var s' := Next(s, step).value;
    NextKeeps(s, step);
    InvIsAccepted(s);
    InvIsAccepted(s');
    RecordsGrow(s, step);
    if es :| OwnGrowth(s, s', es) {
      OwnGrowthDisciplined(s, s', es);
    } else if o, es :| Admits(s, s', o, es) {
      AdmissionDisciplined(s, s', o, es);
    } else if e :| Signals(s, s', e) {
      CompletionDisciplined(s, s', e);
    } else {
      UnmovedDisciplined(s, s');
    }
  }

  lemma InvIsAccepted(s: Sys)
    requires Inv(s)
    ensures Accepted(s.g)
  {
  }

  lemma UnmovedDisciplined(s: Sys, s': Sys)
    requires Disciplined(s.g) && (SameRecords(s, s') || exists open :: Opens(s, s', open))
    ensures Disciplined(s'.g)
  {
  }
}
