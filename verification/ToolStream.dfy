/** The streamed tool-call assembler (agent/tool_corr.go, message_build.go): which slot
    each fragment lands on, and what a finished stream assembles. */
module ToolStream {
  import opened Records

  /** One streamed fragment; an absent position differs from position zero. */
  datatype Fragment = Fragment(id: string, position: Option<int>, name: string, wireType: string, args: string)

  datatype Slot = Slot(id: string, wireType: string, name: string, args: string)

  datatype Assembly = Assembly(slots: map<int, Slot>, ids: map<string, int>, next: int, last: int, conflict: bool)

  datatype BuiltCall = BuiltCall(id: string, name: string, args: string)

  const EMPTY_SLOT := Slot("", "", "", "")
  const FUNCTION := "function"

  function Fresh(): Assembly {
    Assembly(map[], map[], 0, -1, false)
  }

  // ---- Allocation ----------------------------------------------------------------------

  predicate IsLowest(claimed: set<int>, from: int, k: int) {
    from <= k && k !in claimed && forall j :: from <= j < k ==> j in claimed
  }

  /** The lowest unclaimed slot at or after a position. */
  function Lowest(claimed: set<int>, from: int): (k: int)
    ensures IsLowest(claimed, from, k)
    decreases |claimed|
  {
    if from !in claimed then from
    else
      var k := Lowest(claimed - {from}, from + 1);
      assert from < k && k !in claimed - {from};
      assert forall j :: from <= j < k ==> j in claimed by {
        forall j | from <= j < k ensures j in claimed {
          if j > from {
            assert j in claimed - {from};
          }
        }
      }
      k
  }

  lemma LowestUnique(claimed: set<int>, from: int, a: int, b: int)
    requires IsLowest(claimed, from, a) && IsLowest(claimed, from, b)
    ensures a == b
  {
  }

  // ---- Correlation ------------------------------------------------------------------------

  predicate Anonymous(f: Fragment) {
    f.id == "" && f.name == ""
  }

  /** Another call's identity holds the slot. */
  predicate HeldByOther(slots: map<int, Slot>, p: int, id: string) {
    p in slots && slots[p].id != "" && slots[p].id != id
  }

  /** The slot prior state decides for a fragment, or `None` when a new slot is claimed. */
  function Correlated(st: Assembly, count: nat, f: Fragment): Option<int> {
    if Anonymous(f) then
      if count == 1 && st.last >= 0 then Some(st.last)
      else if f.position.Some? && f.position.value in st.slots then Some(f.position.value)
      else if st.last >= 0 then Some(st.last)
      else None
    else if f.position.Some? then
      var p := f.position.value;
      if p !in st.slots || st.slots[p].id == "" || (f.id != "" && st.slots[p].id == f.id) then Some(p) else None
    else if f.id != "" && f.id in st.ids then Some(st.ids[f.id])
    else None
  }

  /** A negative correlated slot is no slot: the allocation runs. */
  function SlotFor(st: Assembly, count: nat, f: Fragment): int {
    var c := Correlated(st, count, f);
    if c.Some? && c.value >= 0 then c.value else Lowest(st.slots.Keys, st.next)
  }

  predicate Allocates(st: Assembly, count: nat, f: Fragment) {
    var c := Correlated(st, count, f);
    c.None? || c.value < 0
  }

  function Landed(st: Assembly, idx: int): Slot {
    if idx in st.slots then st.slots[idx] else EMPTY_SLOT
  }

  predicate WireConflict(slot: Slot, wireType: string) {
    wireType != "" && (if slot.wireType == "" then wireType != FUNCTION else wireType != slot.wireType)
  }

  /** The slot after a fragment lands on it. */
  function Absorbed(slot: Slot, f: Fragment): Slot {
    Slot(if f.id != "" && slot.id == "" then f.id else slot.id,
         if f.wireType != "" && slot.wireType == "" then f.wireType else slot.wireType,
         slot.name + f.name, slot.args + f.args)
  }

  /** One fragment of an event with this many fragments. */
  function ApplyFragment(st: Assembly, count: nat, f: Fragment): Assembly {
    var idx := SlotFor(st, count, f);
    var slot := Landed(st, idx);
    var moved := f.id != "" && f.id in st.ids && st.ids[f.id] != idx;
    Assembly(
      st.slots[idx := Absorbed(slot, f)],
      if f.id != "" && f.id !in st.ids then st.ids[f.id := idx] else st.ids,
      if Allocates(st, count, f) then idx + 1 else st.next,
      idx,
      st.conflict || moved || WireConflict(slot, f.wireType))
  }

  function ApplyFragments(st: Assembly, count: nat, fs: seq<Fragment>): Assembly {
    if |fs| == 0 then st
    else ApplyFragment(ApplyFragments(st, count, fs[..|fs| - 1]), count, fs[|fs| - 1])
  }

  function ApplyEvent(st: Assembly, fs: seq<Fragment>): Assembly {
    ApplyFragments(st, |fs|, fs)
  }

  function ApplyEvents(st: Assembly, events: seq<seq<Fragment>>): Assembly {
    if |events| == 0 then st
    else ApplyEvent(ApplyEvents(st, events[..|events| - 1]), events[|events| - 1])
  }

  /** Wire types are checked at arrival: omitted means function, repeats must agree. */
  method Absorb(slot: Slot, f: Fragment) returns (entry: Slot, clash: bool)
    ensures entry == Absorbed(slot, f) && clash == WireConflict(slot, f.wireType)
    ensures entry.name == slot.name + f.name && entry.args == slot.args + f.args
    ensures slot.id != "" ==> entry.id == slot.id
    ensures slot.id == "" ==> entry.id == f.id
    ensures f.wireType != "" && f.wireType != "function" && (slot.wireType == "" || slot.wireType == "function") ==> clash
    ensures f.wireType == "" || (f.wireType == "function" && (slot.wireType == "" || slot.wireType == "function")) ==> !clash
  {
    entry, clash := slot, false;
    if f.id != "" && entry.id == "" {
      entry := entry.(id := f.id);
    }
    if f.wireType != "" {
      if entry.wireType == "" {
        entry := entry.(wireType := f.wireType);
        clash := f.wireType != FUNCTION;
      } else if f.wireType != entry.wireType {
        clash := true;
      }
    }
    entry := entry.(name := entry.name + f.name, args := entry.args + f.args);
  }

  // ---- The stateful assembler -----------------------------------------------------------------

  class Assembler {
    var slots: map<int, Slot>
    var ids: map<string, int>
    var next: int
    var last: int
    var conflict: bool

    function State(): Assembly
      reads this
    {
      Assembly(slots, ids, next, last, conflict)
    }

    constructor ()
      ensures State() == Fresh()
    {
      slots, ids, next, last, conflict := map[], map[], 0, -1, false;
    }

    /** Decides the slot and materialises it, scanning forward for an unclaimed one. */
    method CorrelateToolFragment(count: nat, f: Fragment) returns (idx: int)
      modifies this
      ensures idx == SlotFor(old(State()), count, f)
      ensures slots == old(slots)[idx := Landed(old(State()), idx)]
      ensures next == if Allocates(old(State()), count, f) then idx + 1 else old(next)
      ensures ids == old(ids) && last == old(last) && conflict == old(conflict)
      ensures f.id == "" && f.name == "" && count == 1 && old(last) >= 0 ==> idx == old(last)
      ensures f.id == "" && f.name == "" && count != 1 && f.position.Some? && f.position.value in old(slots) && f.position.value >= 0 ==>
                idx == f.position.value
      ensures f.id == "" && f.name == "" && old(last) >= 0 && (f.position.None? || f.position.value !in old(slots)) ==> idx == old(last)
      ensures f.id != "" && f.position.None? && f.id in old(ids) && old(ids)[f.id] >= 0 ==> idx == old(ids)[f.id]
      ensures (f.id != "" || f.name != "") && f.position.Some? && f.position.value >= 0 && f.position.value !in old(slots) ==>
                idx == f.position.value
      ensures !Anonymous(f) && f.position.Some? && HeldByOther(old(slots), f.position.value, f.id) ==> idx !in old(slots)
    {
      idx := -1;
      if Anonymous(f) {
        if count == 1 && last >= 0 {
          idx := last;
        } else if f.position.Some? {
          if f.position.value in slots {
            idx := f.position.value;
          } else if last >= 0 {
            idx := last;
          }
        } else if last >= 0 {
          idx := last;
        }
      } else if f.position.Some? {
        var p := f.position.value;
        if p !in slots || slots[p].id == "" || (f.id != "" && slots[p].id == f.id) {
          idx := p;
        }
      } else if f.id != "" && f.id in ids {
        idx := ids[f.id];
      }
      if idx < 0 {
        ghost var from := next;
        ghost var target := Lowest(slots.Keys, next);
        while next in slots
          invariant slots == old(slots) && ids == old(ids) && last == old(last) && conflict == old(conflict)
          invariant from <= next <= target
          invariant forall j :: from <= j < next ==> j in slots
          decreases target - next
        {
          next := next + 1;
        }
        LowestUnique(slots.Keys, from, next, target);
        idx := next;
        next := next + 1;
      }
      if idx !in slots {
        slots := slots[idx := EMPTY_SLOT];
      }
      assert slots == old(slots)[idx := Landed(old(State()), idx)];
    }

    /** One fragment of an event: identity mapping, wire type, then the accumulated pieces. */
    method ApplyToolFragment(count: nat, f: Fragment)
      modifies this
      ensures State() == ApplyFragment(old(State()), count, f)
    {
      hide Lowest, Correlated, Allocates, SlotFor, Absorbed, WireConflict;
      ghost var st := State();
      var idx := CorrelateToolFragment(count, f);
      if f.id != "" {
        if f.id in ids && ids[f.id] != idx {
          conflict := true;
        } else if f.id !in ids {
          ids := ids[f.id := idx];
        }
      }
      var entry, clash := Absorb(slots[idx], f);
      if clash {
        conflict := true;
      }
      slots := slots[idx := entry];
      last := idx;
      assert slots == st.slots[idx := entry];
    }

    method ApplyToolEvent(fs: seq<Fragment>)
      modifies this
      ensures State() == ApplyEvent(old(State()), fs)
    {
      hide ApplyFragment;
      var n := 0;
      while n < |fs|
        invariant 0 <= n <= |fs|
        invariant State() == ApplyFragments(old(State()), |fs|, fs[..n])
      {
        assert fs[..n + 1][..n] == fs[..n];
        ApplyToolFragment(|fs|, fs[n]);
        n := n + 1;
      }
      assert fs[..n] == fs;
    }
  }

  // ---- What every stream keeps --------------------------------------------------------------------

  /** Slots are claimed densely below the scan; without a conflict, each identity sits
      on the one slot recorded for it. */
  ghost predicate WellAssembled(st: Assembly) {
    && 0 <= st.next
    && (forall k :: 0 <= k < st.next ==> k in st.slots)
    && (forall id :: id in st.ids ==> id != "" && st.ids[id] in st.slots)
    && (forall k :: k in st.slots ==> k >= 0)
    && (!st.conflict ==> forall k :: k in st.slots && st.slots[k].id != "" ==>
          st.slots[k].id in st.ids && st.ids[st.slots[k].id] == k)
  }

  lemma FragmentKeeps(st: Assembly, count: nat, f: Fragment)
    requires WellAssembled(st)
    ensures WellAssembled(ApplyFragment(st, count, f))
  {
    var idx := SlotFor(st, count, f);
    var st' := ApplyFragment(st, count, f);
    assert idx >= 0;
    if !st'.conflict && f.id != "" {
      assert st'.ids[f.id] == idx;
    }
  }

  lemma {:induction false} FragmentsKeep(st: Assembly, count: nat, fs: seq<Fragment>)
    requires WellAssembled(st)
    ensures WellAssembled(ApplyFragments(st, count, fs))
  {
    if |fs| > 0 {
      FragmentsKeep(st, count, fs[..|fs| - 1]);
      FragmentKeeps(ApplyFragments(st, count, fs[..|fs| - 1]), count, fs[|fs| - 1]);
    }
  }

  lemma {:induction false} StreamKeeps(events: seq<seq<Fragment>>)
    ensures WellAssembled(ApplyEvents(Fresh(), events))
  {
    if |events| > 0 {
      StreamKeeps(events[..|events| - 1]);
      FragmentsKeep(ApplyEvents(Fresh(), events[..|events| - 1]), |events[|events| - 1]|, events[|events| - 1]);
    }
  }

  /** A claimed slot is always the lowest unclaimed one of the whole stream. */
  lemma AllocationIsLowest(events: seq<seq<Fragment>>, count: nat, f: Fragment)
    ensures var st := ApplyEvents(Fresh(), events);
            Allocates(st, count, f) ==> IsLowest(st.slots.Keys, 0, SlotFor(st, count, f))
  {
    StreamKeeps(events);
  }

  // ---- The assembled calls ----------------------------------------------------------------------

  predicate Complete(slot: Slot) {
    slot.id != "" && slot.name != ""
  }

  predicate Ascending(order: seq<int>) {
    forall i, j :: 0 <= i < j < |order| ==> order[i] < order[j]
  }

  /** The slots in position order. */
  predicate OrderOf(order: seq<int>, slots: map<int, Slot>) {
    Ascending(order) && (forall i :: 0 <= i < |order| ==> order[i] in slots) && forall k :: k in slots ==> k in order
  }

  function CallsIn(order: seq<int>, slots: map<int, Slot>): seq<BuiltCall>
    requires forall i :: 0 <= i < |order| ==> order[i] in slots
  {
    if |order| == 0 then []
    else
      var slot := slots[order[|order| - 1]];
      CallsIn(order[..|order| - 1], slots) + if Complete(slot) then [BuiltCall(slot.id, slot.name, slot.args)] else []
  }

  method Ordered(slots: map<int, Slot>) returns (order: seq<int>)
    ensures OrderOf(order, slots)
  {
    order := [];
    var left := slots.Keys;
    while |left| > 0
      invariant left <= slots.Keys
      invariant Ascending(order)
      invariant forall i :: 0 <= i < |order| ==> order[i] in slots && forall k :: k in left ==> order[i] < k
      invariant forall k :: k in slots ==> k in left || k in order
      decreases |left|
    {
      var least := Least(left);
      order := order + [least];
      left := left - {least};
    }
  }

  lemma Inhabited(keys: set<int>)
    requires |keys| > 0
    ensures exists k :: k in keys
  {
    assert (forall k :: k !in keys) ==> keys == {};
  }

  method Least(keys: set<int>) returns (m: int)
    requires |keys| > 0
    ensures m in keys && forall k :: k in keys ==> m <= k
  {
    Inhabited(keys);
    var first: int :| first in keys;
    m := first;
    var left := keys - {m};
    while |left| > 0
      invariant m in keys && left <= keys
      invariant forall k :: k in keys ==> k in left || m <= k
      decreases |left|
    {
      Inhabited(left);
      var k: int :| k in left;
      if k < m {
        m := k;
      }
      left := left - {k};
    }
  }

  method BuildCalls(slots: map<int, Slot>) returns (calls: seq<BuiltCall>)
    ensures exists order :: OrderOf(order, slots) && calls == CallsIn(order, slots)
  {
    var order := Ordered(slots);
    calls := [];
    var n := 0;
    while n < |order|
      invariant 0 <= n <= |order|
      invariant calls == CallsIn(order[..n], slots)
    {
      assert order[..n + 1][..n] == order[..n];
      var slot := slots[order[n]];
      if Complete(slot) {
        calls := calls + [BuiltCall(slot.id, slot.name, slot.args)];
      }
      n := n + 1;
    }
    assert order[..n] == order;
  }

  /** A built call comes from some complete slot of the order. */
  lemma {:induction false} CallSource(order: seq<int>, slots: map<int, Slot>, c: nat) returns (i: nat)
    requires Ascending(order) && (forall i :: 0 <= i < |order| ==> order[i] in slots) && c < |CallsIn(order, slots)|
    ensures i < |order| && Complete(slots[order[i]]) && CallsIn(order, slots)[c].id == slots[order[i]].id
    ensures |CallsIn(order[..i], slots)| == c
  {
    var n := |order| - 1;
    var front := order[..n];
    if c < |CallsIn(front, slots)| {
      i := CallSource(front, slots, c);
      assert front[..i] == order[..i];
    } else {
      i := n;
    }
  }

  /** For any stream, an output assembled without a conflict has pairwise-distinct call identities. */
  lemma CompletedIdsDistinct(events: seq<seq<Fragment>>, order: seq<int>, a: nat, b: nat)
    requires var st := ApplyEvents(Fresh(), events);
             !st.conflict && OrderOf(order, st.slots) && a < b < |CallsIn(order, st.slots)|
    ensures var calls := CallsIn(order, ApplyEvents(Fresh(), events).slots);
            calls[a].id != calls[b].id
  {
    var st := ApplyEvents(Fresh(), events);
    StreamKeeps(events);
    var i := CallSource(order, st.slots, a);
    var j := CallSource(order, st.slots, b);
    assert i != j;
    assert order[i] != order[j];
  }

  // ---- Reassembly -----------------------------------------------------------------------------------

  /** The anonymous single-fragment events that carry argument pieces; their positions are arbitrary. */
  function Pieces(args: seq<(string, Option<int>)>): seq<seq<Fragment>> {
    seq(|args|, i requires 0 <= i < |args| => [Fragment("", args[i].1, "", "", args[i].0)])
  }

  function Joined(args: seq<(string, Option<int>)>): string {
    if |args| == 0 then "" else Joined(args[..|args| - 1]) + args[|args| - 1].0
  }

  /** One call streamed: identity and name first, then its arguments piece by piece. */
  function StreamCall(c: BuiltCall, position: Option<int>, args: seq<(string, Option<int>)>): seq<seq<Fragment>> {
    [[Fragment(c.id, position, c.name, "", "")]] + Pieces(args)
  }

  function StreamCalls(calls: seq<BuiltCall>, cuts: seq<seq<(string, Option<int>)>>, positioned: bool): seq<seq<Fragment>>
    requires |cuts| == |calls|
  {
    if |calls| == 0 then []
    else
      var n := |calls| - 1;
      StreamCalls(calls[..n], cuts[..n], positioned) + StreamCall(calls[n], if positioned then Some(n) else None, cuts[n])
  }

  lemma {:induction false} EventsConcat(st: Assembly, a: seq<seq<Fragment>>, b: seq<seq<Fragment>>)
    ensures ApplyEvents(st, a + b) == ApplyEvents(ApplyEvents(st, a), b)
  {
    if |b| == 0 {
      assert a + b == a;
    } else {
      var n := |b| - 1;
      assert (a + b)[..|a| + n] == a + b[..n];
      EventsConcat(st, a, b[..n]);
    }
  }

  lemma OneFragment(st: Assembly, f: Fragment)
    ensures ApplyEvent(st, [f]) == ApplyFragment(st, 1, f)
  {
    assert [f][..0] == [];
    assert ApplyFragments(st, 1, []) == st;
  }

  lemma OneEvent(st: Assembly, e: seq<Fragment>)
    ensures ApplyEvents(st, [e]) == ApplyEvent(st, e)
  {
    assert [e][..0] == [];
    assert ApplyEvents(st, []) == st;
  }

  /** The last correlated slot with more argument text. */
  function WithArgs(st: Assembly, text: string): Assembly
    requires st.last in st.slots
  {
    st.(slots := st.slots[st.last := st.slots[st.last].(args := st.slots[st.last].args + text)])
  }

  lemma PieceContinues(st: Assembly, text: string, position: Option<int>)
    requires st.last >= 0 && st.last in st.slots
    ensures ApplyEvent(st, [Fragment("", position, "", "", text)]) == WithArgs(st, text)
  {
    var f := Fragment("", position, "", "", text);
    OneFragment(st, f);
    assert st.slots[st.last].name + "" == st.slots[st.last].name;
  }

  lemma ArgsJoin(st: Assembly, a: string, b: string)
    requires st.last in st.slots
    ensures WithArgs(WithArgs(st, a), b) == WithArgs(st, a + b)
  {
    assert st.slots[st.last].args + a + b == st.slots[st.last].args + (a + b);
    assert WithArgs(WithArgs(st, a), b).slots == WithArgs(st, a + b).slots;
  }

  /** Argument pieces accumulate on the last correlated slot. */
  lemma {:induction false} PiecesAccumulate(st: Assembly, args: seq<(string, Option<int>)>)
    requires st.last >= 0 && st.last in st.slots
    ensures ApplyEvents(st, Pieces(args)) == WithArgs(st, Joined(args))
  {
    if |args| == 0 {
      assert st.slots[st.last].args + "" == st.slots[st.last].args;
      assert st.slots[st.last := st.slots[st.last]] == st.slots;
    } else {
      hide WithArgs, ApplyEvent;
      var n := |args| - 1;
      assert Pieces(args)[..n] == Pieces(args[..n]);
      PiecesAccumulate(st, args[..n]);
      WithArgsKeeps(st, Joined(args[..n]));
      PieceContinues(WithArgs(st, Joined(args[..n])), args[n].0, args[n].1);
      ArgsJoin(st, Joined(args[..n]), args[n].0);
    }
  }

  lemma WithArgsKeeps(st: Assembly, text: string)
    requires st.last >= 0 && st.last in st.slots
    ensures WithArgs(st, text).last == st.last && st.last in WithArgs(st, text).slots
  {
  }

  /** The state once the first calls have streamed. */
  function Assembled(calls: seq<BuiltCall>, positioned: bool): Assembly {
    Assembly(map k | 0 <= k < |calls| :: Slot(calls[k].id, "", calls[k].name, calls[k].args),
             IdMap(calls), if positioned then 0 else |calls|, |calls| - 1, false)
  }

  function IdMap(calls: seq<BuiltCall>): map<string, int> {
    if |calls| == 0 then map[] else IdMap(calls[..|calls| - 1])[calls[|calls| - 1].id := |calls| - 1]
  }

  predicate Streamable(calls: seq<BuiltCall>) {
    && (forall i :: 0 <= i < |calls| ==> calls[i].id != "" && calls[i].name != "")
    && (forall i, j :: 0 <= i < j < |calls| ==> calls[i].id != calls[j].id)
  }

  lemma {:induction false} NotMapped(calls: seq<BuiltCall>, id: string)
    requires forall i :: 0 <= i < |calls| ==> calls[i].id != id
    ensures id !in IdMap(calls)
  {
    if |calls| > 0 {
      NotMapped(calls[..|calls| - 1], id);
    }
  }

  /** The first fragment of the next call claims the next slot. */
  lemma OpensNextSlot(calls: seq<BuiltCall>, positioned: bool)
    requires |calls| > 0 && Streamable(calls)
    ensures var n := |calls| - 1;
            var st := Assembled(calls[..n], positioned);
            var f := Fragment(calls[n].id, if positioned then Some(n) else None, calls[n].name, "", "");
            && SlotFor(st, 1, f) == n && n !in st.slots && f.id !in st.ids
            && (Allocates(st, 1, f) <==> !positioned)
  {
    var n := |calls| - 1;
    var st := Assembled(calls[..n], positioned);
    NotMapped(calls[..n], calls[n].id);
    LowestUnique(st.slots.Keys, st.next, Lowest(st.slots.Keys, st.next), if positioned then Lowest(st.slots.Keys, 0) else n);
  }

  lemma FirstFragment(calls: seq<BuiltCall>, positioned: bool)
    requires |calls| > 0 && Streamable(calls)
    ensures var n := |calls| - 1;
            var st := Assembled(calls[..n], positioned);
            var f := Fragment(calls[n].id, if positioned then Some(n) else None, calls[n].name, "", "");
            ApplyFragment(st, 1, f) == Assembled(calls, positioned).(slots := st.slots[n := Slot(calls[n].id, "", calls[n].name, "")])
  {
    hide Lowest, Correlated, SlotFor, Allocates;
    var n := |calls| - 1;
    var st := Assembled(calls[..n], positioned);
    var f := Fragment(calls[n].id, if positioned then Some(n) else None, calls[n].name, "", "");
    OpensNextSlot(calls, positioned);
    assert Absorbed(EMPTY_SLOT, f) == Slot(calls[n].id, "", calls[n].name, "") by {
      assert "" + f.name == f.name;
    }
  }

  lemma StreamOne(calls: seq<BuiltCall>, args: seq<(string, Option<int>)>, positioned: bool)
    requires |calls| > 0 && Streamable(calls) && Joined(args) == calls[|calls| - 1].args
    ensures var n := |calls| - 1;
            ApplyEvents(Assembled(calls[..n], positioned), StreamCall(calls[n], if positioned then Some(n) else None, args)) ==
            Assembled(calls, positioned)
  {
    hide ApplyFragment, Pieces, ApplyEvents, ApplyEvent, Joined;
    var n := |calls| - 1;
    var st, c := Assembled(calls[..n], positioned), calls[n];
    var f := Fragment(c.id, if positioned then Some(n) else None, c.name, "", "");
    FirstFragment(calls, positioned);
    OneFragment(st, f);
    OneEvent(st, [f]);
    var named := ApplyFragment(st, 1, f);
    EventsConcat(st, [[f]], Pieces(args));
    PiecesAccumulate(named, args);
    assert "" + c.args == c.args;
    assert WithArgs(named, c.args).slots == Assembled(calls, positioned).slots;
  }

  lemma NothingAssembled(positioned: bool)
    ensures Assembled([], positioned) == Fresh()
  {
    assert Assembled([], positioned).slots == map[];
  }

  lemma {:induction false} StreamAll(calls: seq<BuiltCall>, cuts: seq<seq<(string, Option<int>)>>, positioned: bool)
    requires Streamable(calls) && |cuts| == |calls|
    requires forall i :: 0 <= i < |calls| ==> Joined(cuts[i]) == calls[i].args
    ensures ApplyEvents(Fresh(), StreamCalls(calls, cuts, positioned)) == Assembled(calls, positioned)
  {
    if |calls| == 0 {
      NothingAssembled(positioned);
      assert calls == [];
    } else {
      hide ApplyEvents, Joined, Assembled, StreamCall;
      var n := |calls| - 1;
      StreamAll(calls[..n], cuts[..n], positioned);
      EventsConcat(Fresh(), StreamCalls(calls[..n], cuts[..n], positioned),
                   StreamCall(calls[n], if positioned then Some(n) else None, cuts[n]));
      StreamOne(calls, cuts[n], positioned);
    }
  }

  lemma {:induction false} DenseOrder(order: seq<int>, n: nat)
    requires Ascending(order) && (forall k :: k in order <==> 0 <= k < n)
    ensures |order| == n && forall i :: 0 <= i < n ==> order[i] == i
  {
    assert forall i :: 0 <= i < |order| ==> order[i] in order;
    assert |order| > 0 ==> 0 <= order[0] < n;
    if n > 0 {
      var m := |order| - 1;
      assert n - 1 in order;
      assert order[m] in order;
      var front := order[..m];
      forall k ensures k in front <==> 0 <= k < n - 1 {
        if k in order && k != order[m] {
          var i :| 0 <= i < |order| && order[i] == k;
          assert front[i] == k;
        }
        if k in front {
          var i :| 0 <= i < m && front[i] == k;
          assert order[i] == k && order[i] < order[m];
        }
      }
      DenseOrder(front, n - 1);
    }
  }

  lemma {:induction false} DenseCalls(calls: seq<BuiltCall>, order: seq<int>, slots: map<int, Slot>, n: nat)
    requires n <= |calls| && |order| == n && forall i :: 0 <= i < n ==> order[i] == i
    requires forall i :: 0 <= i < n ==> i in slots && slots[i] == Slot(calls[i].id, "", calls[i].name, calls[i].args)
    requires Streamable(calls)
    ensures CallsIn(order, slots) == calls[..n]
  {
    if n > 0 {
      DenseCalls(calls, order[..n - 1], slots, n - 1);
      assert calls[..n] == calls[..n - 1] + [calls[n - 1]];
    }
  }

  /** Any list of distinct calls streamed one after another, with positions all equal to
      the index or all omitted and arguments cut arbitrarily, is reassembled exactly. */
  lemma StreamReassembles(calls: seq<BuiltCall>, cuts: seq<seq<(string, Option<int>)>>, positioned: bool, order: seq<int>)
    requires Streamable(calls) && |cuts| == |calls|
    requires forall i :: 0 <= i < |calls| ==> Joined(cuts[i]) == calls[i].args
    requires OrderOf(order, ApplyEvents(Fresh(), StreamCalls(calls, cuts, positioned)).slots)
    ensures !ApplyEvents(Fresh(), StreamCalls(calls, cuts, positioned)).conflict
    ensures CallsIn(order, ApplyEvents(Fresh(), StreamCalls(calls, cuts, positioned)).slots) == calls
  {
    hide ApplyEvents, StreamCalls, CallsIn;
    StreamAll(calls, cuts, positioned);
    var st := Assembled(calls, positioned);
    assert forall k :: k in order <==> 0 <= k < |calls| by {
      forall k | k in order ensures 0 <= k < |calls| {
        var i :| 0 <= i < |order| && order[i] == k;
        assert k in st.slots;
      }
    }
    DenseOrder(order, |calls|);
    DenseCalls(calls, order, st.slots, |calls|);
    assert calls[..|calls|] == calls;
  }

  // ---- Calls kept apart ----------------------------------------------------------------------------

  /** An anonymous continuation of the call at this position. */
  predicate Continues(f: Fragment, slots: map<int, Slot>) {
    f.id == "" && f.name == "" && f.wireType == "" && f.position.Some? && f.position.value >= 0 && f.position.value in slots
  }

  /** Events that continue several open calls at once, fragment by fragment. */
  predicate Interleaves(events: seq<seq<Fragment>>, slots: map<int, Slot>) {
    forall i :: 0 <= i < |events| ==> |events[i]| > 1 && forall j :: 0 <= j < |events[i]| ==> Continues(events[i][j], slots)
  }

  function EventPiecesAt(fs: seq<Fragment>, k: int): string {
    if |fs| == 0 then ""
    else
      var f := fs[|fs| - 1];
      EventPiecesAt(fs[..|fs| - 1], k) + if f.position == Some(k) then f.args else ""
  }

  /** The argument pieces positioned at k, in arrival order. */
  function PiecesAt(events: seq<seq<Fragment>>, k: int): string {
    if |events| == 0 then "" else PiecesAt(events[..|events| - 1], k) + EventPiecesAt(events[|events| - 1], k)
  }

  /** The same slots and identities, with more argument text where it was sent. */
  ghost predicate OnlyArgs(st: Assembly, st': Assembly, pieces: int -> string) {
    && st'.slots.Keys == st.slots.Keys && st'.ids == st.ids && st'.conflict == st.conflict && st'.next == st.next
    && forall k :: k in st.slots ==> st'.slots[k] == st.slots[k].(args := st.slots[k].args + pieces(k))
  }

  lemma ContinuationStays(st: Assembly, count: nat, f: Fragment)
    requires count > 1 && Continues(f, st.slots)
    ensures OnlyArgs(st, ApplyFragment(st, count, f), k => if f.position == Some(k) then f.args else "")
  {
    var p := f.position.value;
    var st' := ApplyFragment(st, count, f);
    assert st'.slots == st.slots[p := Absorbed(st.slots[p], f)];
    forall k | k in st.slots
      ensures st'.slots[k] == st.slots[k].(args := st.slots[k].args + if f.position == Some(k) then f.args else "")
    {
      assert st.slots[k].name + "" == st.slots[k].name && st.slots[k].args + "" == st.slots[k].args;
    }
  }

  lemma ArgsCompose(a: Assembly, b: Assembly, c: Assembly, p: int -> string, q: int -> string, both: int -> string)
    requires OnlyArgs(a, b, p) && OnlyArgs(b, c, q) && forall k :: both(k) == p(k) + q(k)
    ensures OnlyArgs(a, c, both)
  {
    forall k | k in a.slots ensures c.slots[k] == a.slots[k].(args := a.slots[k].args + both(k)) {
      assert a.slots[k].args + p(k) + q(k) == a.slots[k].args + (p(k) + q(k));
    }
  }

  lemma NoArgs(st: Assembly, nothing: int -> string)
    requires forall k :: nothing(k) == ""
    ensures OnlyArgs(st, st, nothing)
  {
    assert forall k :: k in st.slots ==> st.slots[k].args + "" == st.slots[k].args;
  }

  lemma {:induction false} FragmentsApart(st: Assembly, count: nat, fs: seq<Fragment>)
    requires count > 1 && forall j :: 0 <= j < |fs| ==> Continues(fs[j], st.slots)
    ensures OnlyArgs(st, ApplyFragments(st, count, fs), k => EventPiecesAt(fs, k))
  {
    if |fs| == 0 {
      NoArgs(st, k => EventPiecesAt(fs, k));
    } else {
      var front, f := fs[..|fs| - 1], fs[|fs| - 1];
      FragmentsApart(st, count, front);
      var mid := ApplyFragments(st, count, front);
      ContinuationStays(mid, count, f);
      ArgsCompose(st, mid, ApplyFragment(mid, count, f), k => EventPiecesAt(front, k),
                  k => if f.position == Some(k) then f.args else "", k => EventPiecesAt(fs, k));
    }
  }

  /** However continuations of several open calls interleave, each call receives exactly the
      pieces positioned at it, in order, and nothing else changes. */
  lemma {:induction false} InterleavedApart(st: Assembly, events: seq<seq<Fragment>>)
    requires Interleaves(events, st.slots)
    ensures OnlyArgs(st, ApplyEvents(st, events), k => PiecesAt(events, k))
  {
    if |events| == 0 {
      NoArgs(st, k => PiecesAt(events, k));
    } else {
      var front, e := events[..|events| - 1], events[|events| - 1];
      InterleavedApart(st, front);
      var mid := ApplyEvents(st, front);
      FragmentsApart(mid, |e|, e);
      ArgsCompose(st, mid, ApplyEvent(mid, e), k => PiecesAt(front, k), k => EventPiecesAt(e, k), k => PiecesAt(events, k));
    }
  }

  function Nameless(calls: seq<BuiltCall>): seq<BuiltCall> {
    seq(|calls|, i requires 0 <= i < |calls| => calls[i].(args := ""))
  }

  function NoCuts(n: nat): seq<seq<(string, Option<int>)>> {
    seq(n, i => [])
  }

  /** Calls opened one after another and then continued in any interleaving are reassembled
      exactly: no call receives another's text. */
  lemma InterleavedReassembles(calls: seq<BuiltCall>, events: seq<seq<Fragment>>, order: seq<int>)
    requires Streamable(calls)
    requires forall i :: 0 <= i < |events| ==>
               |events[i]| > 1 && forall j :: 0 <= j < |events[i]| ==>
                 var f := events[i][j];
                 f.id == "" && f.name == "" && f.wireType == "" && f.position.Some? && 0 <= f.position.value < |calls|
    requires forall k :: 0 <= k < |calls| ==> calls[k].args == PiecesAt(events, k)
    requires OrderOf(order, ApplyEvents(Fresh(), StreamCalls(Nameless(calls), NoCuts(|calls|), true) + events).slots)
    ensures !ApplyEvents(Fresh(), StreamCalls(Nameless(calls), NoCuts(|calls|), true) + events).conflict
    ensures CallsIn(order, ApplyEvents(Fresh(), StreamCalls(Nameless(calls), NoCuts(|calls|), true) + events).slots) == calls
  {
    hide ApplyEvents, StreamCalls, CallsIn, PiecesAt;
    var bare, cuts := Nameless(calls), NoCuts(|calls|);
    StreamAll(bare, cuts, true);
    EventsConcat(Fresh(), StreamCalls(bare, cuts, true), events);
    var st := Assembled(bare, true);
    InterleavedApart(st, events);
    var st' := ApplyEvents(st, events);
    assert forall k :: k in order <==> 0 <= k < |calls| by {
      forall k | k in order ensures 0 <= k < |calls| {
        var i :| 0 <= i < |order| && order[i] == k;
        assert k in st'.slots.Keys;
      }
      assert forall k :: 0 <= k < |calls| ==> k in st'.slots.Keys;
    }
    DenseOrder(order, |calls|);
    forall k | 0 <= k < |calls| ensures st'.slots[k] == Slot(calls[k].id, "", calls[k].name, calls[k].args) {
      assert "" + calls[k].args == calls[k].args;
    }
    DenseCalls(calls, order, st'.slots, |calls|);
    assert calls[..|calls|] == calls;
  }

  // ---- Repeated identities -----------------------------------------------------------------------

  /** A continuation that repeats a known identity, at its own position or at none, extends
      that identity's slot and no other; at another position it is a conflict. */
  lemma RepeatedIdentity(events: seq<seq<Fragment>>, count: nat, f: Fragment)
    requires var st := ApplyEvents(Fresh(), events); !st.conflict && f.id != "" && f.id in st.ids
    ensures var st := ApplyEvents(Fresh(), events);
            var st' := ApplyFragment(st, count, f);
            var home := st.ids[f.id];
            if f.position.None? || f.position.value == home then
              && home in st.slots && st.slots[home].id == f.id && st'.ids == st.ids && st'.slots.Keys == st.slots.Keys
              && st'.slots[home].id == f.id && st'.slots[home].name == st.slots[home].name + f.name
              && st'.slots[home].args == st.slots[home].args + f.args
              && forall k :: k in st.slots && k != home ==> st'.slots[k] == st.slots[k]
            else st'.conflict
  {
    var st := ApplyEvents(Fresh(), events);
    StreamKeeps(events);
    IdsOwnSlots(events);
  }

  /** The recorded position of an identity holds it. */
  ghost predicate OwnSlots(st: Assembly) {
    forall id :: id in st.ids ==> st.ids[id] in st.slots && (!st.conflict ==> st.slots[st.ids[id]].id == id)
  }

  lemma FragmentOwns(st: Assembly, count: nat, f: Fragment)
    requires WellAssembled(st) && OwnSlots(st)
    ensures OwnSlots(ApplyFragment(st, count, f))
  {
    var st' := ApplyFragment(st, count, f);
    var idx := SlotFor(st, count, f);
    FragmentKeeps(st, count, f);
    if !st'.conflict && f.id != "" {
      assert st'.slots[idx].id != "" ==> st'.ids[st'.slots[idx].id] == idx;
    }
  }

  lemma {:induction false} FragmentsOwn(st: Assembly, count: nat, fs: seq<Fragment>)
    requires WellAssembled(st) && OwnSlots(st)
    ensures WellAssembled(ApplyFragments(st, count, fs)) && OwnSlots(ApplyFragments(st, count, fs))
  {
    if |fs| > 0 {
      FragmentsOwn(st, count, fs[..|fs| - 1]);
      FragmentKeeps(ApplyFragments(st, count, fs[..|fs| - 1]), count, fs[|fs| - 1]);
      FragmentOwns(ApplyFragments(st, count, fs[..|fs| - 1]), count, fs[|fs| - 1]);
    }
  }

  lemma {:induction false} IdsOwnSlots(events: seq<seq<Fragment>>)
    ensures OwnSlots(ApplyEvents(Fresh(), events))
  {
    if |events| > 0 {
      IdsOwnSlots(events[..|events| - 1]);
      StreamKeeps(events[..|events| - 1]);
      FragmentsOwn(ApplyEvents(Fresh(), events[..|events| - 1]), |events[|events| - 1]|, events[|events| - 1]);
    }
  }

  // ---- Wire types ------------------------------------------------------------------------------------

  predicate SuppliesOther(f: Fragment) {
    f.wireType != "" && f.wireType != "function"
  }

  /** A slot remembers another wire type than function only after a conflict. */
  ghost predicate WiresOk(st: Assembly) {
    forall k :: k in st.slots && st.slots[k].wireType != "" && st.slots[k].wireType != "function" ==> st.conflict
  }

  lemma {:induction false} WiresChecked(st: Assembly, count: nat, fs: seq<Fragment>)
    requires WiresOk(st)
    ensures var st' := ApplyFragments(st, count, fs);
            WiresOk(st') && (st.conflict ==> st'.conflict) && ((exists j :: 0 <= j < |fs| && SuppliesOther(fs[j])) ==> st'.conflict)
  {
    hide ApplyFragment, WiresOk, SuppliesOther;
    if |fs| > 0 {
      var n := |fs| - 1;
      WiresChecked(st, count, fs[..n]);
      WireChecked(ApplyFragments(st, count, fs[..n]), count, fs[n]);
      if j :| 0 <= j < |fs| && SuppliesOther(fs[j]) {
        assert j < n ==> fs[..n][j] == fs[j];
      }
    }
  }

  lemma WireChecked(st: Assembly, count: nat, f: Fragment)
    requires WiresOk(st)
    ensures var st' := ApplyFragment(st, count, f);
            WiresOk(st') && (st.conflict ==> st'.conflict) && (SuppliesOther(f) ==> st'.conflict)
  {
    hide Correlated, Lowest;
  }

  lemma NothingWired()
    ensures WiresOk(Fresh())
  {
  }

  /** In any stream a supplied wire type other than function yields a conflict, for good. */
  lemma {:induction false} OtherWireConflicts(events: seq<seq<Fragment>>)
    ensures var st := ApplyEvents(Fresh(), events);
            WiresOk(st) &&
            ((exists i, j :: 0 <= i < |events| && 0 <= j < |events[i]| && SuppliesOther(events[i][j])) ==> st.conflict)
  {
    hide ApplyFragments, WiresOk, SuppliesOther;
    if |events| == 0 {
      NothingWired();
    } else {
      var n := |events| - 1;
      OtherWireConflicts(events[..n]);
      WiresChecked(ApplyEvents(Fresh(), events[..n]), |events[n]|, events[n]);
      if i, j :| 0 <= i < |events| && 0 <= j < |events[i]| && SuppliesOther(events[i][j]) {
        if i < n {
          assert events[..n][i] == events[i];
        }
      }
    }
  }
}
