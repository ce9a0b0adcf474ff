/** Forking a Session: the copied prefix (harness/fork.go). `rho` gives the identity
    the generator hands out in place of each source identity; generated identities
    are distinct, so it is injective. */
module Fork {
  import opened Records
  import opened Validator
  import opened Transactions
  import opened LogLemmas
  import opened LogFacts
  import opened View
  import opened History
  import opened Projection

  ghost predicate Injective(rho: EntryId -> EntryId) {
    forall a, b :: rho(a) == rho(b) ==> a == b
  }

  /** The kinds a fork copies; settlements and hook results stay behind. */
  predicate Eligible(b: Body) {
    ConversationBearing(b)
  }

  /** Some entry copied so far had this identity. */
  predicate WasCopied(before: seq<Entry>, id: EntryId) {
    exists i :: 0 <= i < |before| && before[i].id == id && Eligible(before[i].body)
  }

  /** A reference is rewritten when its target lies in the copied prefix. */
  function Remap(before: seq<Entry>, rho: EntryId -> EntryId, id: EntryId): EntryId {
    if WasCopied(before, id) then rho(id) else id
  }

  function RemapEvidence(before: seq<Entry>, rho: EntryId -> EntryId, ev: Evidence): Evidence {
    Evidence(if ev.checkpoint.Some? then Some(Remap(before, rho, ev.checkpoint.value)) else None,
             Remap(before, rho, ev.boundary), ev.hooks)
  }

  function CopyCalls(rho: EntryId -> EntryId, calls: seq<Call>): seq<Call> {
    seq(|calls|, k requires 0 <= k < |calls| => Call(calls[k].id, rho(calls[k].result)))
  }

  function ClearedFacts(facts: seq<Fact>): seq<Fact> {
    seq(|facts|, k requires 0 <= k < |facts| => facts[k].(usage := None))
  }

  /** One copied entry: no owner, no usage, rewritten references. */
  function CopyEntry(before: seq<Entry>, e: Entry, rho: EntryId -> EntryId): Entry {
    Entry(rho(e.id), None,
          match e.body
          case Assistant(status, text, source, _, calls, request, ev) =>
            Assistant(status, text, source, None, CopyCalls(rho, calls), request, RemapEvidence(before, rho, ev))
          case ToolResult(answers, assistant, result, text, knowledge, accepted, hooks) =>
            ToolResult(answers, Remap(before, rho, assistant), result, text, knowledge, accepted, hooks)
          case Checkpoint(messages, boundary, facts, consumed, ev) =>
            Checkpoint(messages, Remap(before, rho, boundary), ClearedFacts(facts), consumed, RemapEvidence(before, rho, ev))
          case b => b)
  }

  /** The copied prefix, in source order. */
  function Copied(log: seq<Entry>, rho: EntryId -> EntryId): seq<Entry> {
    if |log| == 0 then []
    else
      var before, e := log[..|log| - 1], log[|log| - 1];
      Copied(before, rho) + if Eligible(e.body) then [CopyEntry(before, e, rho)] else []
  }

  /** The destination before its own admission. */
  function ForkBase(log: seq<Entry>, rho: EntryId -> EntryId): Graph {
    var copied := Copied(log, rho);
    Graph(Session(true, true, None, NewestCheckpoint(copied), map[]), map[], copied)
  }

  predicate IsForkPoint(log: seq<Entry>, n: nat) {
    n < |log| && log[n].body.Input? && log[n].body.origin == User
  }

  // ---- Where an entry's copy lies --------------------------------------------------------

  /** How many entries were copied before position i. */
  function Rank(log: seq<Entry>, i: nat): nat
    requires i <= |log|
  {
    if i == 0 then 0 else Rank(log, i - 1) + if Eligible(log[i - 1].body) then 1 else 0
  }

  lemma {:induction false} RankGrows(log: seq<Entry>, i: nat, j: nat)
    requires i <= j <= |log|
    ensures Rank(log, i) <= Rank(log, j)
    ensures i < j && Eligible(log[i].body) ==> Rank(log, i) < Rank(log, j)
  {
    if i < j {
      RankGrows(log, i, j - 1);
    }
  }

  lemma {:induction false} RankSame(log: seq<Entry>, n: nat, i: nat)
    requires i <= n <= |log|
    ensures Rank(log[..n], i) == Rank(log, i)
  {
    if i > 0 {
      RankSame(log, n, i - 1);
    }
  }

  lemma {:induction false} CopyAt(log: seq<Entry>, rho: EntryId -> EntryId, i: nat)
    requires i < |log| && Eligible(log[i].body)
    ensures |Copied(log, rho)| == Rank(log, |log|) && Rank(log, i) < |Copied(log, rho)|
    ensures Copied(log, rho)[Rank(log, i)] == CopyEntry(log[..i], log[i], rho)
  {
    CopiedLength(log, rho);
    var n := |log| - 1;
    RankGrows(log, i, |log|);
    if i < n {
      CopyAt(log[..n], rho, i);
      RankSame(log, n, i);
      assert log[..n][..i] == log[..i];
    } else {
      CopiedLength(log[..n], rho);
      RankSame(log, n, n);
    }
  }

  /** A reference of a copied entry: renamed exactly when its target was copied before it. */
  predicate Renames(log: seq<Entry>, i: nat, rho: EntryId -> EntryId, id: EntryId, copy: EntryId)
    requires i <= |log|
  {
    copy == if exists j :: 0 <= j < i && log[j].id == id && ConversationBearing(log[j].body) then rho(id) else id
  }

  predicate RenamesEvidence(log: seq<Entry>, i: nat, rho: EntryId -> EntryId, ev: Evidence, copy: Evidence)
    requires i <= |log|
  {
    && copy.hooks == ev.hooks && Renames(log, i, rho, ev.boundary, copy.boundary)
    && (copy.checkpoint.Some? <==> ev.checkpoint.Some?)
    && (ev.checkpoint.Some? ==> Renames(log, i, rho, ev.checkpoint.value, copy.checkpoint.value))
  }

  /** A copy says what its source said: it loses its owner and its usage, its identity, its
      reservations and its references are renamed, and everything else is kept. */
  lemma CopyKeepsContent(log: seq<Entry>, rho: EntryId -> EntryId, i: nat)
    requires i < |log| && Eligible(log[i].body)
    ensures Rank(log, i) < |Copied(log, rho)|
    ensures var c, s := Copied(log, rho)[Rank(log, i)], log[i];
            && c.owner.None? && c.id == rho(s.id)
            && match s.body
               case Input(origin, text) => c.body.Input? && c.body.origin == origin && c.body.text == text
               case Assistant(status, text, source, _, calls, request, ev) =>
                 && c.body.Assistant? && c.body.status == status && c.body.text == text && c.body.source == source
                 && c.body.usage.None? && c.body.request == request && RenamesEvidence(log, i, rho, ev, c.body.evidence)
                 && |c.body.calls| == |calls|
                 && forall k :: 0 <= k < |calls| ==> c.body.calls[k].id == calls[k].id && c.body.calls[k].result == rho(calls[k].result)
               case ToolResult(answers, assistant, result, text, knowledge, accepted, hooks) =>
                 && c.body.ToolResult? && c.body.answers == answers && c.body.result == result && c.body.text == text
                 && c.body.knowledge == knowledge && c.body.accepted == accepted && c.body.hooks == hooks
                 && Renames(log, i, rho, assistant, c.body.assistant)
               case Signal(kind, related, text) =>
                 c.body.Signal? && c.body.kind == kind && c.body.related == related && c.body.text == text
               case Checkpoint(messages, boundary, facts, consumed, ev) =>
                 && c.body.Checkpoint? && c.body.messages == messages && c.body.consumed == consumed
                 && Renames(log, i, rho, boundary, c.body.boundary) && RenamesEvidence(log, i, rho, ev, c.body.evidence)
                 && |c.body.facts| == |facts|
                 && forall k :: 0 <= k < |facts| ==>
                      c.body.facts[k].request == facts[k].request && c.body.facts[k].model == facts[k].model && c.body.facts[k].usage.None?
               case _ => false
  {
    CopyAt(log, rho, i);
    assert forall j :: 0 <= j < i ==> log[..i][j] == log[j];
    assert forall id :: WasCopied(log[..i], id) <==> exists j :: 0 <= j < i && log[j].id == id && ConversationBearing(log[j].body) by {
      CopiedBefore(log, i);
    }
  }

  lemma CopiedBefore(log: seq<Entry>, i: nat)
    requires i <= |log|
    ensures forall id :: WasCopied(log[..i], id) <==> exists j :: 0 <= j < i && log[j].id == id && ConversationBearing(log[j].body)
  {
    forall id ensures WasCopied(log[..i], id) <==> exists j :: 0 <= j < i && log[j].id == id && ConversationBearing(log[j].body) {
      if j :| 0 <= j < i && log[j].id == id && ConversationBearing(log[j].body) {
        assert log[..i][j].id == id;
      }
    }
  }

  /** A fork can be forked again at every copied user message, and at no other entry. */
  lemma ForkPointsCopied(log: seq<Entry>, rho: EntryId -> EntryId, i: nat)
    requires i < |log| && Eligible(log[i].body)
    ensures IsForkPoint(Copied(log, rho), Rank(log, i)) <==> IsForkPoint(log, i)
  {
    CopyKeepsContent(log, rho, i);
  }

  lemma {:induction false} CopiedLength(log: seq<Entry>, rho: EntryId -> EntryId)
    ensures |Copied(log, rho)| == Rank(log, |log|)
  {
    if |log| > 0 {
      CopiedLength(log[..|log| - 1], rho);
      RankSame(log, |log| - 1, |log| - 1);
    }
  }

  /** Every copied entry has a source. */
  lemma {:induction false} SourceOf(log: seq<Entry>, rho: EntryId -> EntryId, d: nat) returns (i: nat)
    requires d < |Copied(log, rho)|
    ensures i < |log| && Eligible(log[i].body) && Rank(log, i) == d
    ensures Copied(log, rho)[d] == CopyEntry(log[..i], log[i], rho)
  {
    var n := |log| - 1;
    if d < |Copied(log[..n], rho)| {
      i := SourceOf(log[..n], rho, d);
      RankSame(log, n, i);
      assert log[..n][..i] == log[..i];
    } else {
      i := n;
      CopiedLength(log[..n], rho);
      RankSame(log, n, n);
    }
  }

  // ---- What a copyable prefix satisfies -------------------------------------------------------

  ghost predicate Copyable(log: seq<Entry>) {
    && DistinctIds(log) && LogConsistent(log) && AllResolved(log) && ResultsFollow(log) && CutsProject(log)
  }

  lemma WasCopiedAt(before: seq<Entry>, rho: EntryId -> EntryId, j: nat)
    requires j < |before| && Eligible(before[j].body)
    ensures Remap(before, rho, before[j].id) == rho(before[j].id)
  {
  }

  /** Resolved evidence still resolves after the copy. */
  lemma RefsCopied(log: seq<Entry>, rho: EntryId -> EntryId, checkpoint: Option<EntryId>, boundary: EntryId)
    requires DistinctIds(log) && CutsProject(log) && RefsResolve(log, checkpoint, boundary)
    ensures RefsResolve(Copied(log, rho),
                        if checkpoint.Some? then Some(Remap(log, rho, checkpoint.value)) else None, Remap(log, rho, boundary))
  {
    var copied := Copied(log, rho);
    var b: nat :| RefsAt(log, checkpoint, boundary, b);
    CopyAt(log, rho, b);
    WasCopiedAt(log, rho, b);
    if checkpoint.Some? {
      var c: nat :| CheckpointRefAt(log, checkpoint.value, b, c);
      CheckpointRefCopied(log, rho, checkpoint.value, b, c);
      assert CheckpointRefAt(copied, Remap(log, rho, checkpoint.value), Rank(log, b), Rank(log, c));
    }
    assert RefsAt(copied, if checkpoint.Some? then Some(Remap(log, rho, checkpoint.value)) else None,
                  Remap(log, rho, boundary), Rank(log, b));
  }

  lemma CheckpointRefCopied(log: seq<Entry>, rho: EntryId -> EntryId, checkpoint: EntryId, b: nat, c: nat)
    requires DistinctIds(log) && CutsProject(log) && b < |log| && Eligible(log[b].body)
    requires CheckpointRefAt(log, checkpoint, b, c)
    ensures CheckpointRefAt(Copied(log, rho), Remap(log, rho, checkpoint), Rank(log, b), Rank(log, c))
  {
    CopyAt(log, rho, b);
    CopyAt(log, rho, c);
    WasCopiedAt(log, rho, c);
    if c != b {
      var t := PositionOf(log, log[c].body.boundary);
      var u :| 0 <= u < b && u < |log| && log[u].id == log[c].body.boundary;
      assert u == t;
      CopyAt(log, rho, t);
      RankGrows(log, t, b);
      assert log[..c][t] == log[t];
      WasCopiedAt(log[..c], rho, t);
      assert Copied(log, rho)[Rank(log, t)].id == Copied(log, rho)[Rank(log, c)].body.boundary;
    }
  }

  lemma RankReflects(log: seq<Entry>, i: nat, b: nat)
    requires i < |log| && b < |log| && Eligible(log[b].body)
    ensures Rank(log, i) <= Rank(log, b) ==> i <= b
  {
    if i > b {
      RankGrows(log, b, i);
    }
  }

  lemma RankStrict(log: seq<Entry>, i: nat, j: nat)
    requires i < |log| && j < |log|
    ensures Rank(log, i) < Rank(log, j) ==> i < j
  {
    if j <= i {
      RankGrows(log, j, i);
    }
  }

  lemma ResultCopied(log: seq<Entry>, rho: EntryId -> EntryId, b: nat, i: nat, k: int)
    requires ReservationsSettle(log) && b < |log| && SafeCut(log, b) && i <= b && IsReservation(log, i, k)
    ensures ResultBy(Copied(log, rho), rho(Reserved(log, i, k)), Rank(log, b))
  {
    assert ResultBy(log, log[i].body.calls[k].result, b);
    var j :| 0 <= j <= b && j < |log| && log[j].id == log[i].body.calls[k].result;
    assert Settles(log[j], log[i], k);
    CopyAt(log, rho, j);
    RankGrows(log, j, b);
    assert Copied(log, rho)[Rank(log, j)].id == rho(Reserved(log, i, k));
  }

  /** A safe cut stays safe: a copied call's result is copied on the same side. */
  lemma CutCopied(log: seq<Entry>, rho: EntryId -> EntryId, b: nat)
    requires ReservationsSettle(log) && b < |log| && Eligible(log[b].body) && SafeCut(log, b)
    ensures Rank(log, b) < |Copied(log, rho)| && SafeCut(Copied(log, rho), Rank(log, b))
  {
    hide ReservationsSettle;
    var copied := Copied(log, rho);
    CopyAt(log, rho, b);
    forall d, k | 0 <= d <= Rank(log, b) && d < |copied| && copied[d].body.Assistant? && 0 <= k < |copied[d].body.calls|
      ensures ResultBy(copied, copied[d].body.calls[k].result, Rank(log, b))
    {
      var i := SourceOf(log, rho, d);
      RankReflects(log, i, b);
      ResultCopied(log, rho, b, i, k);
    }
  }

  lemma CopiedIdIsFresh(log: seq<Entry>, rho: EntryId -> EntryId, id: EntryId)
    requires Injective(rho) && !Committed(log, id)
    ensures !Committed(Copied(log, rho), rho(id))
  {
    forall d | 0 <= d < |Copied(log, rho)| ensures Copied(log, rho)[d].id != rho(id) {
      var i := SourceOf(log, rho, d);
      assert log[i].id != id;
    }
  }

  lemma {:induction false} OwnersCopied(log: seq<Entry>, rho: EntryId -> EntryId)
    ensures forall d :: 0 <= d < |Copied(log, rho)| ==> Copied(log, rho)[d].owner.None?
  {
    forall d | 0 <= d < |Copied(log, rho)| ensures Copied(log, rho)[d].owner.None? {
      var i := SourceOf(log, rho, d);
    }
  }

  // ---- The destination is accepted ---------------------------------------------------------

  lemma EntryCopied(fork: bool, adm: map<OpId, Admission>, before: seq<Entry>, e: Entry, rho: EntryId -> EntryId)
    requires Injective(rho) && DistinctIds(before) && CutsProject(before) && ReservationsSettle(before)
    requires Fits(fork, adm, before, e) && Eligible(e.body)
    requires e.body.Checkpoint? ==> exists t :: 0 <= t < |before| && before[t].id == e.body.boundary && Eligible(before[t].body)
    requires forall d :: 0 <= d < |Copied(before, rho)| ==> Copied(before, rho)[d].owner.None?
    ensures Fits(true, map[], Copied(before, rho), CopyEntry(before, e, rho))
  {
    hide ReservationsSettle, DistinctIds, CutsProject, Injective, RefsResolve, SafeCut;
    CopiedIdIsFresh(before, rho, e.id);
    if EvidenceOf(e.body).Some? {
      var ev := EvidenceOf(e.body).value;
      RefsCopied(before, rho, ev.checkpoint, ev.boundary);
    }
    if e.body.Checkpoint? {
      CheckpointCopied(before, e, rho);
    }
  }

  lemma CheckpointCopied(before: seq<Entry>, e: Entry, rho: EntryId -> EntryId)
    requires DistinctIds(before) && ReservationsSettle(before) && e.body.Checkpoint? && CheckpointFits(before, e)
    requires exists t :: 0 <= t < |before| && before[t].id == e.body.boundary && Eligible(before[t].body)
    ensures CheckpointFits(Copied(before, rho), CopyEntry(before, e, rho))
  {
    hide ReservationsSettle, SafeCut;
    var b :| 0 <= b < |before| && before[b].id == e.body.boundary && SafeCut(before, b);
    var t :| 0 <= t < |before| && before[t].id == e.body.boundary && Eligible(before[t].body);
    assert t == b;
    BoundaryCopied(before, rho, b, CopyEntry(before, e, rho));
  }

  lemma BoundaryCopied(before: seq<Entry>, rho: EntryId -> EntryId, b: nat, e': Entry)
    requires ReservationsSettle(before) && b < |before| && Eligible(before[b].body) && SafeCut(before, b)
    requires e'.body.Checkpoint? && e'.body.boundary == Remap(before, rho, before[b].id)
    ensures CheckpointFits(Copied(before, rho), e')
  {
    hide ReservationsSettle, SafeCut;
    CutCopied(before, rho, b);
    CopyAt(before, rho, b);
    WasCopiedAt(before, rho, b);
    assert Copied(before, rho)[Rank(before, b)].id == e'.body.boundary;
  }

  /** A strict prefix of an accepted, disciplined log at which no call is pending. */
  lemma PrefixCopyable(g: Graph, n: nat)
    requires Accepted(g) && Disciplined(g) && n <= |g.log| && AllResolved(g.log[..n])
    ensures Copyable(g.log[..n]) && LogFits(g.session.fork, Admissions(g.ops), g.log[..n])
  {
    hide Fits, LogConsistent, CutsProject, CutsIncrease, AllResolved, InputsSafe, ResultsFollow, Serial, OwnsTail, OperationsAgree, SessionAgrees, UsageAgrees;
    var log, prefix := g.log, g.log[..n];
    AcceptedDistinct(g);
    assert log == prefix + log[n..];
    DistinctPrefix(prefix, log[n..], log);
    forall i | 0 <= i < n ensures Fits(g.session.fork, Admissions(g.ops), prefix[..i], prefix[i]) {
      assert prefix[..i] == log[..i];
    }
    PrefixConsistent(log, n, prefix);
    PrefixCuts(log, n, prefix);
  }

  lemma PrefixConsistent(log: seq<Entry>, n: nat, prefix: seq<Entry>)
    requires LogConsistent(log) && ResultsFollow(log) && n <= |log| && prefix == log[..n] && AllResolved(prefix)
    ensures LogConsistent(prefix) && ResultsFollow(prefix)
  {
    forall i, k ensures IsReservation(prefix, i, k) <==> IsReservation(log, i, k) && i < n {
    }
    forall i, k, j, l |
      IsReservation(prefix, i, k) && IsReservation(prefix, j, l) && Reserved(prefix, i, k) == Reserved(prefix, j, l)
      ensures i == j && k == l
    {
      assert Reserved(log, i, k) == Reserved(log, j, l);
    }
    forall j | 0 <= j < n && prefix[j].body.ToolResult? ensures ResultAnswers(prefix, prefix[j]) {
      assert ResultAnswers(log, log[j]);
      var i, k :| IsReservation(log, i, k) && Reserved(log, i, k) == log[j].id && Settles(log[j], log[i], k);
      assert i < j;
      assert IsReservation(prefix, i, k) && Reserved(prefix, i, k) == prefix[j].id;
    }
    forall i, k, j, l |
      && IsReservation(prefix, i, k) && IsReservation(prefix, j, l) && prefix[i].body.calls[k].id == prefix[j].body.calls[l].id
      && (i == j || (prefix[i].owner.Some? && prefix[i].owner == prefix[j].owner))
      ensures i == j && k == l
    {
      assert IsReservation(log, i, k) && IsReservation(log, j, l);
    }
  }

  lemma {:induction false} PrefixPosition(log: seq<Entry>, n: nat, id: EntryId)
    requires DistinctIds(log) && n <= |log| && 0 <= PositionOf(log, id) < n
    ensures PositionOf(log[..n], id) == PositionOf(log, id)
  {
    var t := PositionOf(log, id);
    assert log[..n][t].id == id;
    var u := PositionOf(log[..n], id);
    assert u >= 0 && log[u].id == id;
  }

  lemma PrefixCuts(log: seq<Entry>, n: nat, prefix: seq<Entry>)
    requires DistinctIds(log) && CutsProject(log) && n <= |log| && prefix == log[..n]
    ensures CutsProject(prefix)
  {
    forall c | 0 <= c < |prefix| && prefix[c].body.Checkpoint?
      ensures var t := PositionOf(prefix, prefix[c].body.boundary); 0 <= t < c && ConversationBearing(prefix[t].body)
    {
      var id := log[c].body.boundary;
      var t := PositionOf(log, id);
      assert prefix[c] == log[c] && 0 <= t < c && ConversationBearing(log[t].body);
      PrefixPosition(log, n, id);
      assert PositionOf(prefix, id) == t && prefix[t] == log[t];
    }
  }

  lemma {:induction false} CopiedFitsAll(fork: bool, adm: map<OpId, Admission>, log: seq<Entry>, rho: EntryId -> EntryId)
    requires Injective(rho) && LogFits(fork, adm, log) && DistinctIds(log) && CutsProject(log)
    requires ReservationsSettle(log)
    ensures LogFits(true, map[], Copied(log, rho))
  {
    hide ReservationsSettle, Fits, CutsProject, Injective;
    if |log| > 0 {
      var n := |log| - 1;
      var before, e := log[..n], log[n];
      PrefixSettles(log, before);
      PrefixFits(fork, adm, log, before);
      PrefixCuts(log, n, before);
      DistinctPrefix(before, [e], log);
      CopiedFitsAll(fork, adm, before, rho);
      if Eligible(e.body) {
        OwnersCopied(before, rho);
        LastFits(fork, adm, log);
        LastCutProjects(log);
        EntryCopied(fork, adm, before, e, rho);
        LogFitsAppend(true, map[], Copied(before, rho), CopyEntry(before, e, rho));
      } else {
        assert Copied(log, rho) == Copied(before, rho);
      }
    }
  }

  lemma PrefixSettles(log: seq<Entry>, before: seq<Entry>)
    requires |log| > 0 && before == log[..|log| - 1] && ReservationsSettle(log)
    ensures ReservationsSettle(before)
  {
    forall i, k, j | IsReservation(before, i, k) && 0 <= j < |before| && before[j].id == Reserved(before, i, k)
      ensures Settles(before[j], before[i], k)
    {
      assert IsReservation(log, i, k) && log[j].id == Reserved(log, i, k);
    }
  }

  lemma PrefixFits(fork: bool, adm: map<OpId, Admission>, log: seq<Entry>, before: seq<Entry>)
    requires |log| > 0 && before == log[..|log| - 1] && LogFits(fork, adm, log)
    ensures LogFits(fork, adm, before)
  {
    forall i | 0 <= i < |before| ensures Fits(fork, adm, before[..i], before[i]) {
      assert before[..i] == log[..i];
    }
  }

  lemma LastFits(fork: bool, adm: map<OpId, Admission>, log: seq<Entry>)
    requires |log| > 0 && LogFits(fork, adm, log)
    ensures Fits(fork, adm, log[..|log| - 1], log[|log| - 1])
  {
  }

  lemma LastCutProjects(log: seq<Entry>)
    requires |log| > 0 && CutsProject(log)
    ensures var n := |log| - 1;
            log[n].body.Checkpoint? ==>
              exists t :: 0 <= t < n && log[..n][t].id == log[n].body.boundary && Eligible(log[..n][t].body)
  {
    var n := |log| - 1;
    if log[n].body.Checkpoint? {
      var t := PositionOf(log, log[n].body.boundary);
      assert log[..n][t].id == log[n].body.boundary;
    }
  }

  /** A copied reservation is the copy of a source reservation. */
  lemma ReservationSource(log: seq<Entry>, rho: EntryId -> EntryId, d: int, k: int) returns (i: nat)
    requires IsReservation(Copied(log, rho), d, k)
    ensures i < |log| && IsReservation(log, i, k) && Rank(log, i) == d
    ensures Reserved(Copied(log, rho), d, k) == rho(Reserved(log, i, k))
    ensures Copied(log, rho)[d] == CopyEntry(log[..i], log[i], rho)
  {
    i := SourceOf(log, rho, d);
  }

  lemma CopiedUnique(log: seq<Entry>, rho: EntryId -> EntryId)
    requires Injective(rho) && LogConsistent(log)
    ensures ReservationsUnique(Copied(log, rho)) && CallsUnique(Copied(log, rho))
  {
    var copied := Copied(log, rho);
    OwnersCopied(log, rho);
    forall d, k, x, l |
      IsReservation(copied, d, k) && IsReservation(copied, x, l) && Reserved(copied, d, k) == Reserved(copied, x, l)
      ensures d == x && k == l
    {
      var i := ReservationSource(log, rho, d, k);
      var j := ReservationSource(log, rho, x, l);
      assert Reserved(log, i, k) == Reserved(log, j, l);
    }
    forall d, k, l |
      IsReservation(copied, d, k) && IsReservation(copied, d, l) && copied[d].body.calls[k].id == copied[d].body.calls[l].id
      ensures k == l
    {
      var i := ReservationSource(log, rho, d, k);
      assert IsReservation(log, i, l);
    }
  }

  lemma SettlesCopied(log: seq<Entry>, rho: EntryId -> EntryId, i: nat, k: int, j: nat)
    requires i < j < |log| && IsReservation(log, i, k) && Settles(log[j], log[i], k)
    ensures Settles(CopyEntry(log[..j], log[j], rho), CopyEntry(log[..i], log[i], rho), k)
  {
    assert log[..j][i] == log[i];
    WasCopiedAt(log[..j], rho, i);
  }

  lemma CopiedSettle(log: seq<Entry>, rho: EntryId -> EntryId)
    requires Injective(rho) && LogConsistent(log) && ResultsFollow(log)
    ensures ReservationsSettle(Copied(log, rho))
  {
    var copied := Copied(log, rho);
    forall d, k, x | IsReservation(copied, d, k) && 0 <= x < |copied| && copied[x].id == Reserved(copied, d, k)
      ensures Settles(copied[x], copied[d], k)
    {
      var i := ReservationSource(log, rho, d, k);
      var j := SourceOf(log, rho, x);
      assert log[j].id == Reserved(log, i, k);
      SettlesCopied(log, rho, i, k, j);
    }
  }

  lemma CopiedAnswers(log: seq<Entry>, rho: EntryId -> EntryId)
    requires LogConsistent(log) && ResultsFollow(log)
    ensures ResultsAnswer(Copied(log, rho))
  {
    var copied := Copied(log, rho);
    forall x | 0 <= x < |copied| && copied[x].body.ToolResult? ensures ResultAnswers(copied, copied[x]) {
      var j := SourceOf(log, rho, x);
      assert ResultAnswers(log, log[j]);
      var i, k :| IsReservation(log, i, k) && Reserved(log, i, k) == log[j].id && Settles(log[j], log[i], k);
      CopyAt(log, rho, i);
      SettlesCopied(log, rho, i, k, j);
      assert IsReservation(copied, Rank(log, i), k) && Reserved(copied, Rank(log, i), k) == copied[x].id;
    }
  }

  lemma CopiedResolved(log: seq<Entry>, rho: EntryId -> EntryId)
    requires LogConsistent(log) && AllResolved(log)
    ensures AllResolved(Copied(log, rho)) && CopiedCallsResolved(Copied(log, rho))
  {
    var copied := Copied(log, rho);
    forall d, k | IsReservation(copied, d, k) ensures Committed(copied, Reserved(copied, d, k)) {
      var i := ReservationSource(log, rho, d, k);
      var j :| 0 <= j < |log| && log[j].id == Reserved(log, i, k);
      assert Settles(log[j], log[i], k);
      CopyAt(log, rho, j);
      assert copied[Rank(log, j)].id == Reserved(copied, d, k);
    }
  }

  lemma CopiedOrder(log: seq<Entry>, rho: EntryId -> EntryId)
    requires Injective(rho) && ResultsFollow(log)
    ensures ResultsFollow(Copied(log, rho))
  {
    var copied := Copied(log, rho);
    forall d, k, x | IsReservation(copied, d, k) && 0 <= x < |copied| && copied[x].id == Reserved(copied, d, k) ensures d < x {
      var i := ReservationSource(log, rho, d, k);
      var j := SourceOf(log, rho, x);
      assert log[j].id == Reserved(log, i, k);
      RankGrows(log, i, j);
    }
  }

  // ---- The destination's discipline and meaning -------------------------------------------------

  lemma {:induction false} CopiedInputs(log: seq<Entry>, rho: EntryId -> EntryId, i: nat)
    requires i <= |log|
    ensures Rank(log, i) <= |Copied(log, rho)| && Copied(log, rho)[..Rank(log, i)] == Copied(log[..i], rho)
  {
    CopiedLength(log, rho);
    RankGrows(log, i, |log|);
    if i == |log| {
      assert log[..i] == log;
    } else {
      var n := |log| - 1;
      CopiedInputs(log[..n], rho, i);
      RankSame(log, n, i);
      assert log[..n][..i] == log[..i];
      CopiedLength(log[..n], rho);
    }
  }

  lemma CopiedInputsSafe(g: Graph, n: nat, rho: EntryId -> EntryId)
    requires Accepted(g) && Disciplined(g) && n <= |g.log|
    ensures InputsSafe(Copied(g.log[..n], rho))
  {
    hide LogConsistent, Accepted, Disciplined, AllResolved, LogFits;
    var log := g.log[..n];
    var copied := Copied(log, rho);
    forall d | 0 <= d < |copied| && copied[d].body.Input? ensures AllResolved(copied[..d]) {
      var i := SourceOf(log, rho, d);
      assert g.log[..i] == log[..i];
      InputResolved(g, i);
      PrefixCopyable(g, i);
      CopyableParts(log[..i]);
      CopiedResolved(log[..i], rho);
      CopiedInputs(log, rho, i);
    }
  }

  lemma CopyableParts(log: seq<Entry>)
    requires Copyable(log)
    ensures LogConsistent(log) && AllResolved(log) && ResultsFollow(log) && CutsProject(log) && DistinctIds(log)
    ensures ReservationsSettle(log)
  {
  }

  lemma InputResolved(g: Graph, i: nat)
    requires Disciplined(g) && i < |g.log| && g.log[i].body.Input?
    ensures AllResolved(g.log[..i])
  {
  }

  /** A copied checkpoint's cut is the copy of its source's cut. */
  lemma CutPosition(log: seq<Entry>, rho: EntryId -> EntryId, c: nat)
    requires Injective(rho) && DistinctIds(log) && CutsProject(log) && c < |log| && log[c].body.Checkpoint?
    ensures var t := PositionOf(log, log[c].body.boundary);
            && 0 <= t < c && Rank(log, t) < Rank(log, c) < |Copied(log, rho)|
            && Copied(log, rho)[Rank(log, c)].body.Checkpoint?
            && PositionOf(Copied(log, rho), Copied(log, rho)[Rank(log, c)].body.boundary) == Rank(log, t)
            && ConversationBearing(Copied(log, rho)[Rank(log, t)].body)
  {
    var copied := Copied(log, rho);
    var t := PositionOf(log, log[c].body.boundary);
    CopyAt(log, rho, c);
    CopyAt(log, rho, t);
    RankGrows(log, t, c);
    assert log[..c][t] == log[t];
    WasCopiedAt(log[..c], rho, t);
    var id := copied[Rank(log, c)].body.boundary;
    assert copied[Rank(log, t)].id == id;
    var p := PositionOf(copied, id);
    assert p >= 0;
    var i := SourceOf(log, rho, p);
    assert log[i].id == log[t].id;
    assert i == t;
  }

  lemma CopiedCuts(log: seq<Entry>, rho: EntryId -> EntryId)
    requires Injective(rho) && DistinctIds(log) && CutsProject(log)
    ensures CutsProject(Copied(log, rho))
    ensures CutsIncrease(log) ==> CutsIncrease(Copied(log, rho))
  {
    hide Injective, DistinctIds, Copied;
    var copied := Copied(log, rho);
    forall d | 0 <= d < |copied| && copied[d].body.Checkpoint?
      ensures var t := PositionOf(copied, copied[d].body.boundary); 0 <= t < d && ConversationBearing(copied[t].body)
    {
      var c := SourceOf(log, rho, d);
      CutPosition(log, rho, c);
    }
    if CutsIncrease(log) {
      forall d, x | 0 <= d < x < |copied| && copied[d].body.Checkpoint? && copied[x].body.Checkpoint?
        ensures PositionOf(copied, copied[d].body.boundary) < PositionOf(copied, copied[x].body.boundary)
      {
        CopiedCutsIncrease(log, rho, d, x);
      }
    }
  }

  lemma CopiedCutsIncrease(log: seq<Entry>, rho: EntryId -> EntryId, d: nat, x: nat)
    requires Injective(rho) && DistinctIds(log) && CutsProject(log) && CutsIncrease(log)
    requires d < x < |Copied(log, rho)| && Copied(log, rho)[d].body.Checkpoint? && Copied(log, rho)[x].body.Checkpoint?
    ensures PositionOf(Copied(log, rho), Copied(log, rho)[d].body.boundary) <
            PositionOf(Copied(log, rho), Copied(log, rho)[x].body.boundary)
  {
    hide Injective, DistinctIds, Copied;
    var c := SourceOf(log, rho, d);
    var e := SourceOf(log, rho, x);
    CutPosition(log, rho, c);
    CutPosition(log, rho, e);
    RankStrict(log, c, e);
    RankGrows(log, PositionOf(log, log[c].body.boundary), PositionOf(log, log[e].body.boundary));
  }

  /** Nothing copied carries usage. */
  lemma {:induction false} CopiedUsage(log: seq<Entry>, rho: EntryId -> EntryId)
    ensures SessionUsage(Copied(log, rho)) == map[]
  {
    if |log| > 0 {
      var before, e := log[..|log| - 1], log[|log| - 1];
      CopiedUsage(before, rho);
      if Eligible(e.body) {
        Prefix(Copied(before, rho), CopyEntry(before, e, rho));
        if e.body.Checkpoint? {
          ClearedCharge(map[], e.body.facts);
        }
      } else {
        assert Copied(log, rho) == Copied(before, rho);
      }
    }
  }

  lemma {:induction false} ClearedCharge(t: Totals, facts: seq<Fact>)
    ensures ChargeFacts(t, ClearedFacts(facts)) == t
  {
    if |facts| > 0 {
      var n := |facts| - 1;
      ClearedCharge(t, facts[..n]);
      assert ClearedFacts(facts)[..n] == ClearedFacts(facts[..n]);
    }
  }

  lemma {:induction false} NewestIsCheckpoint(log: seq<Entry>)
    requires NewestCheckpoint(log).Some?
    ensures exists i :: 0 <= i < |log| && log[i].id == NewestCheckpoint(log).value && log[i].body.Checkpoint?
  {
    var c := NewestIsLast(log);
  }

  /** Forking at any user-origin input of a reachable Session gives a destination the
      whole validator accepts. */
  lemma ForkAccepted(g: Graph, n: nat, rho: EntryId -> EntryId)
    requires Accepted(g) && Disciplined(g) && IsForkPoint(g.log, n) && Injective(rho)
    ensures Accepted(ForkBase(g.log[..n], rho)) && Disciplined(ForkBase(g.log[..n], rho))
  {
    hide Accepted, Disciplined, LogConsistent, AllResolved, ResultsFollow, CutsProject, DistinctIds, ReservationsSettle, LogFits,
         CutsIncrease, InputsSafe, Injective, Copied;
    var log := g.log[..n];
    InputResolved(g, n);
    PrefixCopyable(g, n);
    CopyableParts(log);
    CopiedFitsAll(g.session.fork, Admissions(g.ops), log, rho);
    CopiedUnique(log, rho);
    CopiedSettle(log, rho);
    CopiedAnswers(log, rho);
    CopiedResolved(log, rho);
    CopiedOrder(log, rho);
    CopiedInputsSafe(g, n, rho);
    PrefixIncreases(g, n);
    CopiedCuts(log, rho);
    CopiedUsage(log, rho);
    OwnersCopied(log, rho);
    BaseAccepted(Copied(log, rho));
  }

  lemma PrefixIncreases(g: Graph, n: nat)
    requires Accepted(g) && Disciplined(g) && n <= |g.log|
    ensures CutsIncrease(g.log[..n])
  {
    var log, prefix := g.log, g.log[..n];
    AcceptedDistinct(g);
    forall c | 0 <= c < n && log[c].body.Checkpoint?
      ensures PositionOf(prefix, log[c].body.boundary) == PositionOf(log, log[c].body.boundary)
    {
      PrefixPosition(log, n, log[c].body.boundary);
    }
  }

  lemma BaseAccepted(copied: seq<Entry>)
    requires LogFits(true, map[], copied) && ReservationsUnique(copied) && ReservationsSettle(copied)
    requires CopiedCallsResolved(copied) && ResultsAnswer(copied) && CallsUnique(copied)
    requires SessionUsage(copied) == map[] && ResultsFollow(copied) && InputsSafe(copied)
    requires CutsProject(copied) && CutsIncrease(copied) && forall d :: 0 <= d < |copied| ==> copied[d].owner.None?
    ensures var g := Graph(Session(true, true, None, NewestCheckpoint(copied), map[]), map[], copied);
            Accepted(g) && Disciplined(g)
  {
    hide LogFits, ReservationsUnique, ReservationsSettle, CopiedCallsResolved, ResultsAnswer, CallsUnique, ResultsFollow, InputsSafe,
         CutsProject, CutsIncrease;
    if NewestCheckpoint(copied).Some? {
      NewestIsCheckpoint(copied);
    }
  }

  // ---- Meaning ---------------------------------------------------------------------------------

  lemma CopyProjects(before: seq<Entry>, e: Entry, rho: EntryId -> EntryId)
    ensures ProjectEntry(CopyEntry(before, e, rho).body) == ProjectEntry(e.body)
    ensures !Eligible(e.body) ==> ProjectEntry(e.body) == []
  {
    if e.body.Assistant? {
      assert CallIds(CopyCalls(rho, e.body.calls)) == CallIds(e.body.calls);
    }
  }

  /** Where a cut's copy lies. */
  function CutRank(log: seq<Entry>, cut: int): int
    requires -1 <= cut < |log|
  {
    if cut < 0 then -1 else Rank(log, cut)
  }

  lemma CutRankSame(log: seq<Entry>, n: nat, cut: int)
    requires -1 <= cut < n <= |log| && (cut >= 0 ==> Eligible(log[cut].body))
    ensures CutRank(log[..n], cut) == CutRank(log, cut) < Rank(log, n)
  {
    if cut >= 0 {
      RankSame(log, n, cut);
      RankGrows(log, cut, n);
    }
  }

  lemma TailLast(log: seq<Entry>, rho: EntryId -> EntryId, cut: int)
    requires -1 <= cut < |log| - 1 && (cut >= 0 ==> Eligible(log[cut].body))
    ensures var before, e := log[..|log| - 1], log[|log| - 1];
            Tail(Copied(log, rho), CutRank(log, cut)) == Tail(Copied(before, rho), CutRank(before, cut)) + ProjectEntry(e.body)
  {
    var before, e := log[..|log| - 1], log[|log| - 1];
    CutRankSame(log, |log| - 1, cut);
    CopiedLength(before, rho);
    RankSame(log, |log| - 1, |log| - 1);
    CopyProjects(before, e, rho);
    if Eligible(e.body) {
      Prefix(Copied(before, rho), CopyEntry(before, e, rho));
    } else {
      assert Copied(log, rho) == Copied(before, rho);
    }
  }

  /** The copied tail after a copied cut projects as the source tail after the source cut. */
  lemma {:induction false} TailCopied(log: seq<Entry>, rho: EntryId -> EntryId, cut: int)
    requires -1 <= cut < |log| && (cut >= 0 ==> Eligible(log[cut].body))
    ensures Tail(Copied(log, rho), CutRank(log, cut)) == Tail(log, cut)
  {
    if cut < |log| - 1 {
      TailLast(log, rho, cut);
      TailCopied(log[..|log| - 1], rho, cut);
    } else if cut >= 0 {
      CopiedLength(log, rho);
    }
  }

  lemma CopyKeepsKind(before: seq<Entry>, e: Entry, rho: EntryId -> EntryId)
    ensures CopyEntry(before, e, rho).body.Checkpoint? <==> e.body.Checkpoint?
    ensures e.body.Checkpoint? ==> CopyEntry(before, e, rho).id == rho(e.id)
  {
  }

  lemma {:induction false} NewestCopied(log: seq<Entry>, rho: EntryId -> EntryId)
    ensures NewestCheckpoint(Copied(log, rho)) ==
            if NewestCheckpoint(log).Some? then Some(rho(NewestCheckpoint(log).value)) else None
  {
    hide CopyEntry, RemapEvidence;
    if |log| > 0 {
      var before, e := log[..|log| - 1], log[|log| - 1];
      NewestCopied(before, rho);
      CopyKeepsKind(before, e, rho);
      if Eligible(e.body) {
        Prefix(Copied(before, rho), CopyEntry(before, e, rho));
      } else {
        assert Copied(log, rho) == Copied(before, rho);
      }
    }
  }

  /** Fork preserves meaning: the destination's copied prefix projects the conversation
      the source projected just before the boundary input was committed. */
  lemma ForkPreservesProjection(g: Graph, n: nat, rho: EntryId -> EntryId)
    requires Accepted(g) && Disciplined(g) && n < |g.log| && g.log[n].body.Input? && Injective(rho)
    ensures var dest := ForkBase(g.log[..n], rho);
            Project(dest.log, dest.session.checkpoint) == Project(g.log[..n], NewestCheckpoint(g.log[..n]))
  {
    hide Accepted, Disciplined, LogConsistent, AllResolved, ResultsFollow, CutsProject, DistinctIds, ReservationsSettle, LogFits,
         Injective, Copied;
    var log := g.log[..n];
    var copied := Copied(log, rho);
    InputResolved(g, n);
    PrefixCopyable(g, n);
    CopyableParts(log);
    NewestCopied(log, rho);
    if NewestCheckpoint(log).Some? {
      var c := NewestIsLast(log);
      NamedCutoff(log, c);
      CutPosition(log, rho, c);
      CutOfTarget(log, c);
      CopiedCuts(log, rho);
      CopyAt(log, rho, c);
      CopiedDistinct(log, rho);
      NamedCutoff(copied, Rank(log, c));
      TailCopied(log, rho, PositionOf(log, log[c].body.boundary));
    } else {
      TailCopied(log, rho, -1);
    }
  }

  lemma CutOfTarget(log: seq<Entry>, c: nat)
    requires CutsProject(log) && c < |log| && log[c].body.Checkpoint?
    ensures var t := PositionOf(log, log[c].body.boundary); 0 <= t < c && Eligible(log[t].body)
  {
  }

  lemma CopiedDistinct(log: seq<Entry>, rho: EntryId -> EntryId)
    requires Injective(rho) && DistinctIds(log)
    ensures DistinctIds(Copied(log, rho))
  {
    var copied := Copied(log, rho);
    forall d, x | 0 <= d < x < |copied| ensures copied[d].id != copied[x].id {
      var i := SourceOf(log, rho, d);
      var j := SourceOf(log, rho, x);
      RankReflects(log, j, i);
      assert log[i].id != log[j].id;
    }
  }
}
