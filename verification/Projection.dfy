/** The conversation a request projects from the log (harness/context.go), and the
    effect of one committed checkpoint on it (harness/compact.go). */
module Projection {
  import opened Records
  import opened Transactions
  import opened LogLemmas
  import opened View
  import opened History

  // ---- Tails -----------------------------------------------------------------------

  lemma {:induction false} TailSplits(log: seq<Entry>, es: seq<Entry>, cut: int)
    requires cut < |log|
    ensures Tail(log + es, cut) == Tail(log, cut) + Tail(es, -1)
  {
    if |es| == 0 {
      assert log + es == log;
    } else {
      var n := |es| - 1;
      assert log + es == (log + es[..n]) + [es[n]];
      Prefix(log + es[..n], es[n]);
      TailSplits(log, es[..n], cut);
    }
  }

  lemma {:induction false} TailFromCut(log: seq<Entry>, cut: int)
    requires -1 <= cut < |log|
    ensures Tail(log, cut) == Tail(log[cut + 1..], -1)
  {
    if |log| - 1 > cut {
      var n := |log| - 1;
      TailFromCut(log[..n], cut);
      assert log[cut + 1..] == log[..n][cut + 1..] + [log[n]];
      Prefix(log[..n][cut + 1..], log[n]);
    } else {
      assert log[cut + 1..] == [];
    }
  }

  /** The messages between two cuts. */
  function Between(log: seq<Entry>, a: int, b: int): seq<Message>
    requires -1 <= a <= b < |log|
  {
    Tail(log[a + 1..b + 1], -1)
  }

  lemma TailBetween(log: seq<Entry>, a: int, b: int)
    requires -1 <= a <= b < |log|
    ensures Tail(log, a) == Between(log, a, b) + Tail(log, b)
  {
    TailFromCut(log, a);
    TailFromCut(log, b);
    var x, y := log[a + 1..b + 1], log[b + 1..];
    assert log[a + 1..] == x + y;
    TailSplits(x, y, -1);
  }

  // ---- What a checkpoint replaces ---------------------------------------------------------

  /** The covered source prefix: the prior checkpoint's messages and the messages up to the cut. */
  function Covered(log: seq<Entry>, checkpoint: Option<EntryId>, cut: int): seq<Message>
    requires Cutoff(log, checkpoint) <= cut < |log|
  {
    Prior(log, checkpoint) + Between(log, Cutoff(log, checkpoint), cut)
  }

  lemma NamedCutoff(log: seq<Entry>, c: int)
    requires DistinctIds(log) && CutsProject(log) && 0 <= c < |log| && log[c].body.Checkpoint?
    ensures PositionOf(log, log[c].id) == c
    ensures Cutoff(log, Some(log[c].id)) == PositionOf(log, log[c].body.boundary)
    ensures Prior(log, Some(log[c].id)) == log[c].body.messages
  {
    var p := PositionOf(log, log[c].id);
    assert p >= 0 && log[p].id == log[c].id;
    assert p == c;
  }

  /** A new checkpoint is the one its register names, cut where it was proposed. */
  lemma NewCheckpointCut(log: seq<Entry>, e: Entry, frozen: EntryId, log': seq<Entry>)
    requires DistinctIds(log') && CutsProject(log) && CutsIncrease(log) && log' == log + [e] && e.body.Checkpoint?
    requires CoveredBoundary(log, NewestCheckpoint(log), frozen, e.body.boundary)
    ensures Cutoff(log', Some(e.id)) == PositionOf(log, e.body.boundary)
    ensures Prior(log', Some(e.id)) == e.body.messages
  {
    hide CutsProject, CutsIncrease;
    var cut := PositionOf(log, e.body.boundary);
    CutsGrowCheckpoint(log, e, frozen, log');
    assert log'[|log|] == e && log'[cut] == log[cut];
    NamedCutoff(log', |log|);
    PositionStable(log, [e], e.body.boundary);
  }

  lemma TailPastCheckpoint(log: seq<Entry>, e: Entry, cut: int)
    requires e.body.Checkpoint? && cut < |log|
    ensures Tail(log + [e], cut) == Tail(log, cut)
  {
    Prefix(log, e);
  }

  /** One committed checkpoint replaces exactly the covered prefix of the view: the
      new view is its messages and then the old view from the covered count on. */
  lemma CheckpointReplaces(log: seq<Entry>, checkpoint: Option<EntryId>, frozen: EntryId, e: Entry)
    requires DistinctIds(log + [e]) && CutsProject(log) && CutsIncrease(log) && checkpoint == NewestCheckpoint(log)
    requires e.body.Checkpoint? && CoveredBoundary(log, checkpoint, frozen, e.body.boundary)
    ensures var cut := PositionOf(log, e.body.boundary);
            && Cutoff(log, checkpoint) < cut
            && Covered(log, checkpoint, cut) <= Project(log, checkpoint)
            && Project(log + [e], Some(e.id)) ==
               e.body.messages + Project(log, checkpoint)[|Covered(log, checkpoint, cut)|..]
  {
    var cut := PositionOf(log, e.body.boundary);
    DistinctPrefix(log, [e], log + [e]);
    LaterCut(log, checkpoint, frozen, e.body.boundary);
    NewCheckpointCut(log, e, frozen, log + [e]);
    TailPastCheckpoint(log, e, cut);
    hide DistinctIds, CutsProject, CutsIncrease, Prior, Cutoff, Tail, CoveredBoundary;
    TailBetween(log, Cutoff(log, checkpoint), cut);
    assert Project(log, checkpoint) == Covered(log, checkpoint, cut) + Tail(log, cut);
  }

  lemma LaterCut(log: seq<Entry>, checkpoint: Option<EntryId>, frozen: EntryId, proposed: EntryId)
    requires DistinctIds(log) && CutsProject(log) && CutsIncrease(log) && checkpoint == NewestCheckpoint(log)
    requires CoveredBoundary(log, checkpoint, frozen, proposed)
    ensures Cutoff(log, checkpoint) < PositionOf(log, proposed)
  {
    if checkpoint.Some? {
      var c := NewestIsLast(log);
      NamedCutoff(log, c);
      ProposalCutsLater(log, frozen, proposed, c);
    }
  }

  lemma ArrivalsKeepCut(log: seq<Entry>, es: seq<Entry>, checkpoint: Option<EntryId>, log': seq<Entry>)
    requires DistinctIds(log') && log' == log + es && CutsProject(log) && (checkpoint.Some? ==> NamesAt(log, checkpoint.value))
    ensures Cutoff(log', checkpoint) == Cutoff(log, checkpoint) && Prior(log', checkpoint) == Prior(log, checkpoint)
  {
    if checkpoint.Some? {
      var c :| 0 <= c < |log| && log[c].id == checkpoint.value && log[c].body.Checkpoint?;
      assert log'[c] == log[c];
      DistinctPrefix(log, es, log');
      NamedCutoff(log, c);
      CutsStable(log, es, log', c);
      assert forall i :: 0 <= i < |es| ==> log'[|log| + i] == es[i];
      PositionStable(log, es, checkpoint.value);
    }
  }

  /** Later arrivals join the tail of the view and change nothing before it. */
  lemma ArrivalsJoin(log: seq<Entry>, es: seq<Entry>, checkpoint: Option<EntryId>)
    requires DistinctIds(log + es) && CutsProject(log) && (checkpoint.Some? ==> NamesAt(log, checkpoint.value))
    ensures Project(log + es, checkpoint) == Project(log, checkpoint) + Tail(es, -1)
  {
    ArrivalsKeepCut(log, es, checkpoint, log + es);
    hide DistinctIds, CutsProject, Prior, Cutoff, Tail;
    TailSplits(log, es, Cutoff(log, checkpoint));
  }

  ghost predicate NamesAt(log: seq<Entry>, id: EntryId) {
    exists c :: 0 <= c < |log| && log[c].id == id && log[c].body.Checkpoint?
  }

  /** The pair a checkpoint publishes is the one the rebuilt projection then reports. */
  lemma RebuiltIsProjected(log: seq<Entry>, e: Entry, frozen: EntryId)
    requires DistinctIds(log + [e]) && CutsProject(log) && CutsIncrease(log)
    requires e.body.Checkpoint? && CoveredBoundary(log, NewestCheckpoint(log), frozen, e.body.boundary)
    ensures ProjectedBoundary(log + [e], Some(e.id)) == Some(RebuiltBoundary(log, e.body.boundary, e.id))
  {
    NewCheckpointCut(log, e, frozen, log + [e]);
    Prefix(log, e);
  }

  // ---- What an entry says -----------------------------------------------------------------

  /** Entities back to the characters they stand for. */
  function Unescaped(text: Text): Text {
    if |text| == 0 then ""
    else if "&amp;" <= text then "&" + Unescaped(text[5..])
    else if "&lt;" <= text then "<" + Unescaped(text[4..])
    else if "&gt;" <= text then ">" + Unescaped(text[4..])
    else [text[0]] + Unescaped(text[1..])
  }

  lemma AmpersandReads(rest: Text)
    ensures Unescaped("&amp;" + rest) == "&" + Unescaped(rest)
  {
    assert ("&amp;" + rest)[5..] == rest && "&amp;" <= "&amp;" + rest;
  }

  lemma LessReads(rest: Text)
    ensures Unescaped("&lt;" + rest) == "<" + Unescaped(rest)
  {
    var t := "&lt;" + rest;
    assert t[4..] == rest && "&lt;" <= t;
    assert t[1] == 'l' && "&amp;"[1] == 'a';
  }

  lemma GreaterReads(rest: Text)
    ensures Unescaped("&gt;" + rest) == ">" + Unescaped(rest)
  {
    var t := "&gt;" + rest;
    assert t[4..] == rest && "&gt;" <= t;
    assert t[1] == 'g' && "&amp;"[1] == 'a' && "&lt;"[1] == 'l';
  }

  lemma PlainReads(c: char, rest: Text)
    requires c != '&'
    ensures Unescaped([c] + rest) == [c] + Unescaped(rest)
  {
    var t := [c] + rest;
    assert t[0] == c && t[1..] == rest;
    assert "&amp;"[0] == '&' && "&lt;"[0] == '&' && "&gt;"[0] == '&';
  }

  predicate NoMarkup(text: Text) {
    '<' !in text && '>' !in text
  }

  /** Escaping loses nothing and leaves no markup character. */
  lemma {:induction false} EscapedReadsBack(text: Text)
    ensures Unescaped(Escaped(text)) == text && NoMarkup(Escaped(text))
  {
    if |text| > 0 {
      EscapedReadsBack(text[1..]);
      hide Unescaped;
      var rest := Escaped(text[1..]);
      assert text == [text[0]] + text[1..];
      match text[0]
      case '&' => AmpersandReads(rest);
      case '<' => LessReads(rest);
      case '>' => GreaterReads(rest);
      case c => PlainReads(c, rest);
    }
  }

  /** A signal's message: its text, with no markup of its own, inside the signal tags. */
  ghost predicate IsSignalMessage(m: Message, text: Text) {
    m.UserMessage? &&
    exists inner :: m.text == "<system-signal>" + inner + "</system-signal>" && Unescaped(inner) == text &&
                    NoMarkup(inner)
  }

  /** The messages one entry adds to the view: an input's, an output's, a result's or a
      signal's own one, and none of a hook result, a settlement or a checkpoint. */
  lemma EntrySays(e: Entry)
    ensures match e.body
            case Input(_, text) => Tail([e], -1) == [UserMessage(text)]
            case Assistant(_, text, _, _, calls, _, _) =>
              && |Tail([e], -1)| == 1 && Tail([e], -1)[0].AssistantMessage? && Tail([e], -1)[0].text == text
              && |Tail([e], -1)[0].calls| == |calls|
              && forall k :: 0 <= k < |calls| ==> Tail([e], -1)[0].calls[k] == calls[k].id
            case ToolResult(answers, _, _, text, _, _, _) => Tail([e], -1) == [ToolMessage(answers, text)]
            case Signal(_, _, text) => |Tail([e], -1)| == 1 && IsSignalMessage(Tail([e], -1)[0], text)
            case HookResult(_, _, _, _, _) => Tail([e], -1) == []
            case Settled(_) => Tail([e], -1) == []
            case Checkpoint(_, _, _, _, _) => Tail([e], -1) == []
  {
    assert [e][..0] == [];
    if e.body.Signal? {
      EscapedReadsBack(e.body.text);
    }
  }
}
