/** Tool-call pairing in a materialised view, and the checkpoint proposals that keep
    it (harness/compact.go). */
module Pairing {
  import opened Records

  // ---- Outstanding calls -----------------------------------------------------------

  /** Calls a view has opened and not yet answered, by the position that opened them;
      `None` when a still-outstanding call repeats or a result answers nothing. */
  function OpenCalls(open: map<CallId, nat>, at: nat, calls: seq<CallId>): Option<map<CallId, nat>> {
    if |calls| == 0 then Some(open)
    else
      var rest := OpenCalls(open, at, calls[..|calls| - 1]);
      var last := calls[|calls| - 1];
      if rest.None? || last in rest.value then None else Some(rest.value[last := at])
  }

  function Absorb(open: map<CallId, nat>, at: nat, m: Message): Option<map<CallId, nat>> {
    match m
    case UserMessage(_) => Some(open)
    case AssistantMessage(_, calls) => OpenCalls(open, at, calls)
    case ToolMessage(answers, _) => if answers in open then Some(open - {answers}) else None
  }

  function Outstanding(view: seq<Message>): Option<map<CallId, nat>> {
    if |view| == 0 then Some(map[])
    else
      var rest := Outstanding(view[..|view| - 1]);
      if rest.None? then None else Absorb(rest.value, |view| - 1, view[|view| - 1])
  }

  /** Only complete tool exchanges. */
  predicate Paired(view: seq<Message>) {
    Outstanding(view) == Some(map[])
  }

  /** The view is a prefix of one that never repeats or orphans a call. */
  predicate WellOpened(view: seq<Message>) {
    Outstanding(view).Some?
  }

  lemma {:induction false} PrefixOpened(view: seq<Message>, n: nat)
    requires WellOpened(view) && n <= |view|
    ensures WellOpened(view[..n])
  {
    if n == |view| {
      assert view[..n] == view;
    } else {
      assert view[..|view| - 1][..n] == view[..n];
      PrefixOpened(view[..|view| - 1], n);
    }
  }

  /** A call opened at a position is published there, before now. */
  lemma {:induction false} OpenedBy(open: map<CallId, nat>, at: nat, calls: seq<CallId>)
    requires OpenCalls(open, at, calls).Some?
    ensures var out := OpenCalls(open, at, calls).value;
            (forall c :: c in out <==> c in open || c in calls) &&
            (forall c :: c in out ==> out[c] == if c in open then open[c] else at)
    ensures forall c :: c in calls ==> c !in open
    ensures forall i, j :: 0 <= i < j < |calls| ==> calls[i] != calls[j]
  {
    if |calls| > 0 {
      OpenedBy(open, at, calls[..|calls| - 1]);
    }
  }

  lemma {:induction false} CanOpen(open: map<CallId, nat>, at: nat, calls: seq<CallId>)
    requires forall c :: c in calls ==> c !in open
    requires forall i, j :: 0 <= i < j < |calls| ==> calls[i] != calls[j]
    ensures OpenCalls(open, at, calls).Some?
  {
    if |calls| > 0 {
      var front := calls[..|calls| - 1];
      CanOpen(open, at, front);
      OpenedBy(open, at, front);
    }
  }

  /** The check the harness runs over a materialised view. */
  method ValidateToolPairing(view: seq<Message>) returns (ok: bool)
    ensures ok <==> Paired(view)
  {
    var outstanding: map<CallId, nat> := map[];
    var i := 0;
    while i < |view|
      invariant 0 <= i <= |view|
      invariant Outstanding(view[..i]) == Some(outstanding)
    {
      assert view[..i + 1][..i] == view[..i];
      var m := view[i];
      if m.AssistantMessage? {
        var k := 0;
        var unfinished := outstanding;
        while k < |m.calls|
          invariant 0 <= k <= |m.calls|
          invariant OpenCalls(outstanding, i, m.calls[..k]) == Some(unfinished)
        {
          assert m.calls[..k + 1][..k] == m.calls[..k];
          if m.calls[k] in unfinished {
            assert OpenCalls(outstanding, i, m.calls[..k + 1]).None?;
            NeverReopens(outstanding, i, m.calls, k + 1);
            NeverRecovers(view, i + 1);
            return false;
          }
          unfinished := unfinished[m.calls[k] := i];
          k := k + 1;
        }
        assert m.calls[..k] == m.calls;
        outstanding := unfinished;
      } else if m.ToolMessage? {
        if m.answers !in outstanding {
          NeverRecovers(view, i + 1);
          return false;
        }
        outstanding := outstanding - {m.answers};
      }
      i := i + 1;
    }
    assert view[..i] == view;
    ok := outstanding == map[];
  }

  lemma {:induction false} NeverReopens(open: map<CallId, nat>, at: nat, calls: seq<CallId>, k: nat)
    requires k <= |calls| && OpenCalls(open, at, calls[..k]).None?
    ensures OpenCalls(open, at, calls).None?
  {
    if k == |calls| {
      assert calls[..k] == calls;
    } else {
      assert calls[..|calls| - 1][..k] == calls[..k];
      NeverReopens(open, at, calls[..|calls| - 1], k);
    }
  }

  lemma {:induction false} NeverRecovers(view: seq<Message>, n: nat)
    requires n <= |view| && !WellOpened(view[..n])
    ensures !WellOpened(view)
  {
    if n == |view| {
      assert view[..n] == view;
    } else {
      assert view[..|view| - 1][..n] == view[..n];
      NeverRecovers(view[..|view| - 1], n);
    }
  }

  // ---- Occurrence pairing in the frozen source ------------------------------------------

  /** Each open call identity retires its oldest open occurrence, in source order. */
  datatype Scan = Scan(open: map<CallId, seq<nat>>, owner: map<nat, nat>)

  function QueueOf(open: map<CallId, seq<nat>>, c: CallId): seq<nat> {
    if c in open then open[c] else []
  }

  function Enqueue(open: map<CallId, seq<nat>>, at: nat, calls: seq<CallId>): map<CallId, seq<nat>> {
    if |calls| == 0 then open
    else
      var rest := Enqueue(open, at, calls[..|calls| - 1]);
      var last := calls[|calls| - 1];
      rest[last := QueueOf(rest, last) + [at]]
  }

  function ScanMessage(s: Scan, at: nat, m: Message): Scan {
    match m
    case UserMessage(_) => s
    case AssistantMessage(_, calls) => Scan(Enqueue(s.open, at, calls), s.owner)
    case ToolMessage(answers, _) =>
      var queue := QueueOf(s.open, answers);
      if |queue| == 0 then s else Scan(s.open[answers := queue[1..]], s.owner[at := queue[0]])
  }

  function ScanView(frozen: seq<Message>): Scan {
    if |frozen| == 0 then Scan(map[], map[])
    else ScanMessage(ScanView(frozen[..|frozen| - 1]), |frozen| - 1, frozen[|frozen| - 1])
  }

  // ---- Proposals ---------------------------------------------------------------------------

  datatype Item = Retain(position: int) | Context(message: Message)

  /** Authored context opens and answers no call. */
  predicate ToolFree(m: Message) {
    m.UserMessage? || (m.AssistantMessage? && m.calls == [])
  }

  /** Retained positions are strictly increasing and inside the covered view. */
  predicate ItemsShaped(items: seq<Item>, covered: int) {
    && (forall k :: 0 <= k < |items| && items[k].Retain? ==> 0 <= items[k].position < covered)
    && (forall k :: 0 <= k < |items| && items[k].Context? ==> ToolFree(items[k].message))
    && (forall k, l :: 0 <= k < l < |items| && items[k].Retain? && items[l].Retain? ==> items[k].position < items[l].position)
  }

  predicate Retained(items: seq<Item>, p: int) {
    exists k :: 0 <= k < |items| && items[k].Retain? && items[k].position == p
  }

  /** A retained assistant carries all its results, and a retained result its own call. */
  predicate OccurrenceClosed(frozen: seq<Message>, owner: map<nat, nat>, items: seq<Item>) {
    && (forall j :: j in owner && Retained(items, owner[j]) ==> Retained(items, j))
    && (forall j :: 0 <= j < |frozen| && Retained(items, j) && frozen[j].ToolMessage? ==> j in owner && Retained(items, owner[j]))
  }

  function Materialised(frozen: seq<Message>, items: seq<Item>): seq<Message>
    requires ItemsShaped(items, |frozen|)
  {
    seq(|items|, k requires 0 <= k < |items| =>
      if items[k].Retain? then frozen[items[k].position] else items[k].message)
  }

  /** The messages of an accepted proposal. */
  function Resolve(frozen: seq<Message>, items: seq<Item>, covered: int): Option<seq<Message>>
    requires covered <= |frozen|
  {
    if |items| == 0 || !ItemsShaped(items, covered) then None
    else
      assert ItemsShaped(items, |frozen|);
      if !OccurrenceClosed(frozen, ScanView(frozen).owner, items) then None
      else if !Paired(Materialised(frozen, items)) then None
      else Some(Materialised(frozen, items))
  }

  // ---- The scan agrees with the pairing ---------------------------------------------------

  /** In a view that never repeats an outstanding call, every queue holds its one occurrence. */
  ghost predicate QueuesAgree(open: map<CallId, seq<nat>>, out: map<CallId, nat>) {
    forall c :: QueueOf(open, c) == if c in out then [out[c]] else []
  }

  lemma {:induction false} EnqueueAgrees(open: map<CallId, seq<nat>>, out: map<CallId, nat>, at: nat, calls: seq<CallId>)
    requires QueuesAgree(open, out) && OpenCalls(out, at, calls).Some?
    ensures QueuesAgree(Enqueue(open, at, calls), OpenCalls(out, at, calls).value)
  {
    if |calls| > 0 {
      EnqueueAgrees(open, out, at, calls[..|calls| - 1]);
    }
  }

  /** The call a result answers: the position that opened it. */
  function PairOf(view: seq<Message>, j: nat): nat
    requires WellOpened(view) && j < |view| && view[j].ToolMessage?
  {
    ResultPairs(view, j);
    Outstanding(view[..j]).value[view[j].answers]
  }

  lemma ResultPairs(view: seq<Message>, j: nat)
    requires WellOpened(view) && j < |view| && view[j].ToolMessage?
    ensures WellOpened(view[..j]) && view[j].answers in Outstanding(view[..j]).value
  {
    PrefixOpened(view, j + 1);
    assert view[..j + 1][..j] == view[..j];
  }

  /** The occurrence scan computes exactly the source pairing. */
  lemma {:induction false} ScanIsPairing(frozen: seq<Message>)
    requires WellOpened(frozen)
    ensures QueuesAgree(ScanView(frozen).open, Outstanding(frozen).value)
    ensures forall j :: j in ScanView(frozen).owner <==> 0 <= j < |frozen| && frozen[j].ToolMessage?
    ensures forall j :: j in ScanView(frozen).owner ==> ScanView(frozen).owner[j] == PairOf(frozen, j)
  {
    if |frozen| > 0 {
      var n := |frozen| - 1;
      var front, m := frozen[..n], frozen[n];
      ScanIsPairing(front);
      forall j | 0 <= j < n && frozen[j].ToolMessage? ensures front[j] == frozen[j] && PairOf(front, j) == PairOf(frozen, j) {
        assert front[..j] == frozen[..j];
      }
      var out := Outstanding(front).value;
      if m.AssistantMessage? {
        EnqueueAgrees(ScanView(front).open, out, n, m.calls);
      } else if m.ToolMessage? {
        assert QueueOf(ScanView(front).open, m.answers) == [out[m.answers]];
      }
    }
  }

  // ---- Retained pairing ---------------------------------------------------------------------

  /** One past the last source position the first k items retain. */
  function Reached(items: seq<Item>, k: nat): nat
    requires k <= |items| && forall i :: 0 <= i < |items| && items[i].Retain? ==> 0 <= items[i].position
  {
    if k == 0 then 0
    else if items[k - 1].Retain? then items[k - 1].position + 1
    else Reached(items, k - 1)
  }

  lemma {:induction false} ReachedBounds(items: seq<Item>, covered: int, k: nat)
    requires ItemsShaped(items, covered) && 0 <= covered && k <= |items|
    ensures Reached(items, k) <= covered
    ensures forall i :: 0 <= i < k && items[i].Retain? ==> items[i].position < Reached(items, k)
    ensures forall i :: k <= i < |items| && items[i].Retain? ==> Reached(items, k) <= items[i].position
  {
    if k > 0 {
      ReachedBounds(items, covered, k - 1);
    }
  }

  /** What a materialised view has open is the image of what the source has open there. */
  ghost predicate Image(items: seq<Item>, source: map<CallId, nat>, view: map<CallId, nat>) {
    && (forall c :: c in view <==> c in source && Retained(items, source[c]))
    && (forall c :: c in view ==> view[c] < |items| && items[view[c]] == Retain(source[c]))
  }

  ghost predicate NoneRetained(items: seq<Item>, q: nat, p: nat) {
    forall x :: q <= x < p ==> !Retained(items, x)
  }

  /** Skipped source positions move nothing a retained call depends on. */
  lemma {:induction false} Skip(frozen: seq<Message>, items: seq<Item>, q: nat, p: nat, view: map<CallId, nat>)
    requires WellOpened(frozen) && OccurrenceClosed(frozen, ScanView(frozen).owner, items)
    requires q <= p <= |frozen| && NoneRetained(items, q, p)
    requires WellOpened(frozen[..q]) && Image(items, Outstanding(frozen[..q]).value, view)
    ensures WellOpened(frozen[..p]) && Image(items, Outstanding(frozen[..p]).value, view)
  {
    PrefixOpened(frozen, p);
    if q < p {
      Skip(frozen, items, q, p - 1, view);
      SkipOne(frozen, items, p - 1, view);
    }
  }

  /** A result is retained exactly with the call it answers. */
  lemma OwnerFollows(frozen: seq<Message>, items: seq<Item>, p: nat)
    requires WellOpened(frozen) && OccurrenceClosed(frozen, ScanView(frozen).owner, items)
    requires p < |frozen| && frozen[p].ToolMessage?
    ensures WellOpened(frozen[..p]) && frozen[p].answers in Outstanding(frozen[..p]).value
    ensures PairOf(frozen, p) == Outstanding(frozen[..p]).value[frozen[p].answers]
    ensures Retained(items, PairOf(frozen, p)) <==> Retained(items, p)
  {
    ScanIsPairing(frozen);
    ResultPairs(frozen, p);
    var owner := ScanView(frozen).owner;
    assert p in owner && owner[p] == PairOf(frozen, p);
  }

  lemma SkipOne(frozen: seq<Message>, items: seq<Item>, p: nat, view: map<CallId, nat>)
    requires WellOpened(frozen) && OccurrenceClosed(frozen, ScanView(frozen).owner, items)
    requires p < |frozen| && !Retained(items, p)
    requires WellOpened(frozen[..p]) && Image(items, Outstanding(frozen[..p]).value, view)
    ensures WellOpened(frozen[..p + 1]) && Image(items, Outstanding(frozen[..p + 1]).value, view)
  {
    hide OccurrenceClosed, Retained, ScanView;
    PrefixOpened(frozen, p + 1);
    assert frozen[..p + 1][..p] == frozen[..p];
    var source := Outstanding(frozen[..p]).value;
    var m := frozen[p];
    if m.AssistantMessage? {
      OpenedBy(source, p, m.calls);
    } else if m.ToolMessage? {
      OwnerFollows(frozen, items, p);
    }
  }

  lemma {:induction false} RetainedPrefix(frozen: seq<Message>, items: seq<Item>, covered: int, k: nat)
    requires Paired(frozen) && 0 <= covered <= |frozen| && ItemsShaped(items, covered)
    requires OccurrenceClosed(frozen, ScanView(frozen).owner, items) && k <= |items|
    ensures ItemsShaped(items, |frozen|) && Reached(items, k) <= |frozen|
    ensures WellOpened(Materialised(frozen, items)[..k]) && WellOpened(frozen[..Reached(items, k)])
    ensures Image(items, Outstanding(frozen[..Reached(items, k)]).value, Outstanding(Materialised(frozen, items)[..k]).value)
  {
    ReachedBounds(items, covered, k);
    PrefixOpened(frozen, Reached(items, k));
    if k > 0 {
      RetainedPrefix(frozen, items, covered, k - 1);
      RetainedStep(frozen, items, covered, k - 1, Materialised(frozen, items));
    }
  }

  lemma RetainedStep(frozen: seq<Message>, items: seq<Item>, covered: int, k: nat, view: seq<Message>)
    requires Paired(frozen) && 0 <= covered <= |frozen| && ItemsShaped(items, covered) && ItemsShaped(items, |frozen|)
    requires OccurrenceClosed(frozen, ScanView(frozen).owner, items) && k < |items| && view == Materialised(frozen, items)
    requires Reached(items, k) <= |frozen| && Reached(items, k + 1) <= |frozen|
    requires WellOpened(view[..k]) && WellOpened(frozen[..Reached(items, k)])
    requires Image(items, Outstanding(frozen[..Reached(items, k)]).value, Outstanding(view[..k]).value)
    ensures WellOpened(view[..k + 1]) && WellOpened(frozen[..Reached(items, k + 1)])
    ensures Image(items, Outstanding(frozen[..Reached(items, k + 1)]).value, Outstanding(view[..k + 1]).value)
  {
    assert view[..k + 1][..k] == view[..k];
    if items[k].Context? {
      if items[k].message.AssistantMessage? {
        assert OpenCalls(Outstanding(view[..k]).value, k, []) == Some(Outstanding(view[..k]).value);
      }
    } else {
      var p := items[k].position;
      GapNotRetained(items, covered, k);
      Skip(frozen, items, Reached(items, k), p, Outstanding(view[..k]).value);
      RetainOne(frozen, items, k, view);
    }
  }

  lemma GapNotRetained(items: seq<Item>, covered: int, k: nat)
    requires ItemsShaped(items, covered) && 0 <= covered && k < |items| && items[k].Retain?
    ensures Reached(items, k) <= items[k].position && NoneRetained(items, Reached(items, k), items[k].position)
  {
    ReachedBounds(items, covered, k);
  }

  lemma OutstandingStep(view: seq<Message>, n: nat)
    requires n < |view| && WellOpened(view[..n])
    ensures Outstanding(view[..n + 1]) == Absorb(Outstanding(view[..n]).value, n, view[n])
  {
    assert view[..n + 1][..n] == view[..n];
  }

  lemma RetainOne(frozen: seq<Message>, items: seq<Item>, k: nat, view: seq<Message>)
    requires Paired(frozen) && ItemsShaped(items, |frozen|) && view == Materialised(frozen, items)
    requires OccurrenceClosed(frozen, ScanView(frozen).owner, items) && k < |items| && items[k].Retain?
    requires var p := items[k].position;
             && WellOpened(view[..k]) && WellOpened(frozen[..p])
             && Image(items, Outstanding(frozen[..p]).value, Outstanding(view[..k]).value)
    ensures var p := items[k].position;
            && WellOpened(view[..k + 1]) && WellOpened(frozen[..p + 1])
            && Image(items, Outstanding(frozen[..p + 1]).value, Outstanding(view[..k + 1]).value)
            && (frozen[p].ToolMessage? ==>
                  && frozen[p].answers in Outstanding(view[..k]).value
                  && Outstanding(view[..k]).value[frozen[p].answers] < |items|
                  && items[Outstanding(view[..k]).value[frozen[p].answers]] == Retain(PairOf(frozen, p)))
  {
    hide OccurrenceClosed, ScanView, Image, Absorb;
    var p := items[k].position;
    assert Retained(items, p) && view[k] == frozen[p];
    PrefixOpened(frozen, p + 1);
    hide Retained, Materialised, ItemsShaped, Outstanding;
    OutstandingStep(frozen, p);
    OutstandingStep(view, k);
    if frozen[p].ToolMessage? {
      OwnerFollows(frozen, items, p);
    }
    AbsorbBoth(items, Outstanding(frozen[..p]).value, Outstanding(view[..k]).value, p, k, frozen[p]);
  }

  /** Source and view absorb the same retained message side by side. */
  lemma AbsorbBoth(items: seq<Item>, source: map<CallId, nat>, out: map<CallId, nat>, p: nat, k: nat, m: Message)
    requires Image(items, source, out) && k < |items| && items[k] == Retain(p) && Retained(items, p)
    requires Absorb(source, p, m).Some? && (m.ToolMessage? ==> Retained(items, source[m.answers]))
    ensures Absorb(out, k, m).Some? && Image(items, Absorb(source, p, m).value, Absorb(out, k, m).value)
    ensures m.ToolMessage? ==> m.answers in out && out[m.answers] < |items| && items[out[m.answers]] == Retain(source[m.answers])
  {
    hide Retained;
    if m.AssistantMessage? {
      OpenedBy(source, p, m.calls);
      CanOpen(out, k, m.calls);
      OpenedBy(out, k, m.calls);
    }
  }

  /** For a well-paired source and a closed proposal, the materialised view is well paired:
      the final pairing guard can never be what rejects it. */
  lemma ClosureImpliesPairing(frozen: seq<Message>, items: seq<Item>, covered: int)
    requires Paired(frozen) && 0 <= covered <= |frozen| && ItemsShaped(items, covered) && ItemsShaped(items, |frozen|)
    requires OccurrenceClosed(frozen, ScanView(frozen).owner, items)
    ensures Paired(Materialised(frozen, items))
  {
    var view := Materialised(frozen, items);
    var n := |items|;
    RetainedPrefix(frozen, items, covered, n);
    ReachedBounds(items, covered, n);
    Skip(frozen, items, Reached(items, n), |frozen|, Outstanding(view[..n]).value);
    assert view[..n] == view && frozen[..|frozen|] == frozen;
    assert Outstanding(view).value == map[];
  }

  /** Pairing in the materialised view is exactly the image of the source pairing: a
      retained result answers the copy of the very occurrence it answered in the source. */
  lemma PairingIsImage(frozen: seq<Message>, items: seq<Item>, covered: int, k: nat)
    requires Paired(frozen) && 0 <= covered <= |frozen| && ItemsShaped(items, covered) && ItemsShaped(items, |frozen|)
    requires OccurrenceClosed(frozen, ScanView(frozen).owner, items)
    requires k < |items| && items[k].Retain? && frozen[items[k].position].ToolMessage?
    ensures WellOpened(Materialised(frozen, items))
    ensures var j := PairOf(Materialised(frozen, items), k);
            j < |items| && items[j] == Retain(PairOf(frozen, items[k].position))
  {
    var view := Materialised(frozen, items);
    ClosureImpliesPairing(frozen, items, covered);
    RetainedPrefix(frozen, items, covered, k);
    GapNotRetained(items, covered, k);
    Skip(frozen, items, Reached(items, k), items[k].position, Outstanding(view[..k]).value);
    RetainOne(frozen, items, k, view);
    ResultPairs(view, k);
  }

  /** On well-paired sources, acceptance is exactly shape and occurrence closure. */
  lemma ResolveAccepts(frozen: seq<Message>, items: seq<Item>, covered: int)
    requires Paired(frozen) && 0 <= covered <= |frozen|
    ensures Resolve(frozen, items, covered).Some? <==>
            |items| > 0 && ItemsShaped(items, covered) && OccurrenceClosed(frozen, ScanView(frozen).owner, items)
  {
    if ItemsShaped(items, covered) && OccurrenceClosed(frozen, ScanView(frozen).owner, items) {
      ClosureImpliesPairing(frozen, items, covered);
    }
  }

  /** The messages of an accepted proposal: each retained item is its frozen message, from
      inside the covered view and in order, each authored one its own, free of calls; and a
      proposal of this shape is accepted exactly when it keeps, with every result, the message
      that opened its call, and with every opening message all of its results. */
  lemma ResolvedMessages(frozen: seq<Message>, items: seq<Item>, covered: int)
    requires Paired(frozen) && 0 <= covered <= |frozen|
    ensures Resolve(frozen, items, covered).Some? <==>
              && |items| > 0
              && (forall k :: 0 <= k < |items| ==>
                    match items[k]
                    case Retain(p) => 0 <= p < covered
                    case Context(m) => m.UserMessage? || (m.AssistantMessage? && m.calls == []))
              && (forall k, l :: 0 <= k < l < |items| && items[k].Retain? && items[l].Retain? ==> items[k].position < items[l].position)
              && (forall j :: 0 <= j < |frozen| && frozen[j].ToolMessage? ==>
                    (Retain(j) in items <==> Retain(PairOf(frozen, j)) in items))
    ensures Resolve(frozen, items, covered).Some? ==>
              var ms := Resolve(frozen, items, covered).value;
              |ms| == |items| &&
              forall k :: 0 <= k < |items| ==>
                match items[k]
                case Retain(p) => 0 <= p < |frozen| && ms[k] == frozen[p]
                case Context(m) => ms[k] == m
  {
    ResolveAccepts(frozen, items, covered);
    ScanIsPairing(frozen);
    assert forall p :: Retained(items, p) <==> Retain(p) in items;
  }

  // ---- What pairing means -------------------------------------------------------------------

  /** How often a message opens a call. */
  function OpenCount(calls: seq<CallId>, c: CallId): nat {
    if |calls| == 0 then 0 else OpenCount(calls[..|calls| - 1], c) + if calls[|calls| - 1] == c then 1 else 0
  }

  /** How many more times a view opens a call than it answers it. */
  function Balance(view: seq<Message>, c: CallId): int {
    if |view| == 0 then 0
    else
      var last := view[|view| - 1];
      Balance(view[..|view| - 1], c)
      + (if last.AssistantMessage? then OpenCount(last.calls, c) else 0)
      - (if last.ToolMessage? && last.answers == c then 1 else 0)
  }

  /** What one more message adds to a call's balance. */
  function Change(m: Message, c: CallId): int {
    if m.AssistantMessage? then OpenCount(m.calls, c) else if m.ToolMessage? && m.answers == c then -1 else 0
  }

  lemma BalanceGrows(view: seq<Message>, m: Message, c: CallId)
    ensures Balance(view + [m], c) == Balance(view, c) + Change(m, c)
  {
    assert (view + [m])[..|view|] == view;
  }

  ghost predicate Balanced(view: seq<Message>) {
    forall c :: 0 <= Balance(view, c) <= 1
  }

  /** At no point of the view is a call open twice or a result without its open call. */
  ghost predicate Alternates(view: seq<Message>) {
    forall n :: 0 <= n <= |view| ==> Balanced(view[..n])
  }

  /** The opening message of every call a view leaves open. */
  ghost predicate OpenAgrees(view: seq<Message>, open: map<CallId, nat>) {
    forall c :: (c in open <==> Balance(view, c) == 1) && (c in open ==> OpenedAt(view, c, open[c]))
  }

  predicate OpenedAt(view: seq<Message>, c: CallId, p: nat) {
    && p < |view| && view[p].AssistantMessage? && c in view[p].calls
    && forall j :: p < j < |view| ==> !(view[j].ToolMessage? && view[j].answers == c) && !(view[j].AssistantMessage? && c in view[j].calls)
  }

  lemma {:induction false} OpenCounts(open: map<CallId, nat>, at: nat, calls: seq<CallId>)
    ensures OpenCalls(open, at, calls).Some? <==> forall c :: (if c in open then 1 else 0) + OpenCount(calls, c) <= 1
    ensures OpenCalls(open, at, calls).Some? ==>
              forall c :: (c in OpenCalls(open, at, calls).value <==> c in open || c in calls) &&
                          (c in OpenCalls(open, at, calls).value ==>
                             OpenCalls(open, at, calls).value[c] == if c in calls then at else open[c])
    ensures forall c :: c in calls <==> OpenCount(calls, c) > 0
  {
    if |calls| > 0 {
      var n := |calls| - 1;
      OpenCounts(open, at, calls[..n]);
      assert calls == calls[..n] + [calls[n]];
      if forall c :: (if c in open then 1 else 0) + OpenCount(calls, c) <= 1 {
        forall c ensures (if c in open then 1 else 0) + OpenCount(calls[..n], c) <= 1 {
          assert OpenCount(calls[..n], c) <= OpenCount(calls, c);
        }
        assert (if calls[n] in open then 1 else 0) + OpenCount(calls, calls[n]) <= 1;
      }
    }
  }

  lemma AlternatesStep(view: seq<Message>)
    requires |view| > 0
    ensures Alternates(view) <==> Alternates(view[..|view| - 1]) && Balanced(view)
  {
    hide Balanced;
    var n := |view| - 1;
    assert view[..n + 1] == view;
    if Alternates(view) {
      forall k | 0 <= k <= n ensures Balanced(view[..n][..k]) {
        assert view[..n][..k] == view[..k];
      }
    }
    if Alternates(view[..n]) && Balanced(view) {
      forall k | 0 <= k <= |view| ensures Balanced(view[..k]) {
        if k <= n {
          assert view[..n][..k] == view[..k];
        }
      }
    }
  }

  /** One more message, with the calls it finds open. */
  lemma AbsorbAgrees(view: seq<Message>, open: map<CallId, nat>, m: Message)
    requires OpenAgrees(view, open) && Balanced(view)
    ensures Absorb(open, |view|, m).Some? <==> Balanced(view + [m])
    ensures Absorb(open, |view|, m).Some? ==> OpenAgrees(view + [m], Absorb(open, |view|, m).value)
  {
    hide Balance, OpenedAt;
    forall c ensures Balance(view + [m], c) == Balance(view, c) + Change(m, c) {
      BalanceGrows(view, m, c);
    }
    if m.AssistantMessage? {
      OpenCounts(open, |view|, m.calls);
      if !OpenCalls(open, |view|, m.calls).Some? {
        var c :| (if c in open then 1 else 0) + OpenCount(m.calls, c) > 1;
        assert Balance(view + [m], c) > 1;
      }
    }
    if m.ToolMessage? && m.answers !in open {
      assert Balance(view + [m], m.answers) < 0;
    }
    if Absorb(open, |view|, m).Some? {
      StillOpen(view, open, m, Absorb(open, |view|, m).value);
    }
  }

  lemma StillOpen(view: seq<Message>, open: map<CallId, nat>, m: Message, next: map<CallId, nat>)
    requires OpenAgrees(view, open) && forall c :: c in next <==> Balance(view + [m], c) == 1
    requires forall c :: c in next ==>
               if m.AssistantMessage? && c in m.calls then next[c] == |view|
               else c in open && next[c] == open[c] && !(m.ToolMessage? && m.answers == c)
    ensures OpenAgrees(view + [m], next)
  {
    hide Balance, OpenedAt;
    forall c | c in next ensures OpenedAt(view + [m], c, next[c]) {
      if m.AssistantMessage? && c in m.calls {
        JustOpened(view, m, c);
      } else {
        OpenedStays(view, m, c, open[c]);
      }
    }
  }

  lemma JustOpened(view: seq<Message>, m: Message, c: CallId)
    requires m.AssistantMessage? && c in m.calls
    ensures OpenedAt(view + [m], c, |view|)
  {
  }

  lemma OpenedStays(view: seq<Message>, m: Message, c: CallId, p: nat)
    requires OpenedAt(view, c, p) && !(m.ToolMessage? && m.answers == c) && !(m.AssistantMessage? && c in m.calls)
    ensures OpenedAt(view + [m], c, p)
  {
  }

  /** Independently of the scan: a view never repeats or orphans a call exactly when every
      call's openings and answers alternate, it then leaves open exactly the calls opened once
      more than answered, and it is paired exactly when nothing is left open. */
  lemma {:induction false} PairedMeans(view: seq<Message>)
    ensures WellOpened(view) <==> Alternates(view)
    ensures WellOpened(view) ==> OpenAgrees(view, Outstanding(view).value)
    ensures Paired(view) <==> Alternates(view) && forall c :: Balance(view, c) == 0
  {
    if |view| == 0 {
      NothingOpen(view);
    } else {
      hide Balance, OpenAgrees, Absorb, Balanced, Alternates;
      var n := |view| - 1;
      PairedMeans(view[..n]);
      AlternatesStep(view);
      assert view[..n] + [view[n]] == view;
      if WellOpened(view[..n]) {
        BalancedSoFar(view[..n]);
        AbsorbAgrees(view[..n], Outstanding(view[..n]).value, view[n]);
        assert Outstanding(view) == Absorb(Outstanding(view[..n]).value, n, view[n]);
      }
      assert WellOpened(view) <==> Alternates(view);
      assert WellOpened(view) ==> OpenAgrees(view, Outstanding(view).value);
      ClosedWhenPaired(view);
    }
  }

  lemma NothingOpen(view: seq<Message>)
    requires view == []
    ensures Outstanding(view) == Some(map[]) && Alternates(view) && OpenAgrees(view, map[]) && forall c :: Balance(view, c) == 0
  {
  }

  lemma BalancedSoFar(view: seq<Message>)
    requires Alternates(view)
    ensures Balanced(view)
  {
    assert view[..|view|] == view;
  }

  lemma ClosedWhenPaired(view: seq<Message>)
    requires WellOpened(view) ==> OpenAgrees(view, Outstanding(view).value)
    requires WellOpened(view) <==> Alternates(view)
    ensures Paired(view) <==> Alternates(view) && forall c :: Balance(view, c) == 0
  {
    hide OpenedAt;
    if Alternates(view) {
      BalancedSoFar(view);
      var open := Outstanding(view).value;
      if open == map[] {
        forall c ensures Balance(view, c) == 0 {
          assert c !in open && 0 <= Balance(view, c) <= 1;
        }
      } else {
        var c :| c in open;
        assert Balance(view, c) == 1;
      }
    }
  }
}
