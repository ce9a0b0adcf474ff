/** The per-Session coordinator (harness/harness.go, execution.go, background.go): every
    critical section under its mutex, interleaved arbitrarily. The reservation, the run
    slot and the two FIFOs decide what becomes of a message that arrives while an
    Operation is active. */
module Coordinator {
  import opened Records

  type RunId = nat

  /** A buffered message; its key stands for the pending item's own identity. */
  datatype Item = Item(key: nat)

  datatype Mode = Regular | Queued

  /** How far the completion owner that holds the reservation has come. */
  datatype Stage = Settling | Scanning | Delivering(item: Item) | Starting(admitted: OpId)

  /** The one admission reservation; `Reserved` until its holder's routing decision. */
  datatype Holder =
    | Free
    | Reserved
    | Admitting
    | Adopted(op: OpId)
    | Completing(run: RunId, stage: Stage)

  /** How one item left its buffer. */
  datatype Left = Left(item: Item, admitted: bool)

  /** `executing` are installed executions still running, `retiring` those past their
      completion. `joined` and `left` are the histories of the two buffers, `delivered`
      the buffered items admitted as Operations. */
  datatype Co = Co(
    live: bool,
    open: bool,
    closed: bool,
    gone: bool,
    current: Option<OpId>,
    run: Option<RunId>,
    steering: seq<Item>,
    queued: seq<Item>,
    holder: Holder,
    executing: set<RunId>,
    retiring: set<RunId>,
    used: set<RunId>,
    joinedSteering: seq<Item>,
    leftSteering: seq<Left>,
    joinedQueued: seq<Item>,
    leftQueued: seq<Left>,
    delivered: seq<Item>)

  function Initial(): Co {
    Co(true, true, false, false, None, None, [], [], Free, {}, {}, {}, [], [], [], [], [])
  }

  predicate Active(c: Co) {
    c.current.Some? || c.run.Some?
  }

  /** Harness loss, a non-open lifecycle and a closed group all refuse agent work. */
  predicate Receivable(c: Co) {
    c.live && c.open && !c.closed && !c.gone
  }

  /** How a background completion is delivered: receivability outranks activity. */
  datatype Priority = DeliverClosed | DeliverSteering | DeliverIdle

  function PriorityOf(c: Co): Priority {
    if !c.live || !c.open || c.closed then DeliverClosed
    else if Active(c) then DeliverSteering
    else DeliverIdle
  }

  predicate Quiescent(c: Co) {
    !Active(c) && c.steering == [] && c.queued == []
  }

  predicate NewItem(c: Co, item: Item) {
    item !in c.joinedSteering && item !in c.joinedQueued
  }

  // ---- Critical sections -----------------------------------------------------------

  function EnqueueSteering(c: Co, item: Item): Co {
    c.(steering := c.steering + [item], joinedSteering := c.joinedSteering + [item])
  }

  function EnqueueQueued(c: Co, item: Item): Co {
    c.(queued := c.queued + [item], joinedQueued := c.joinedQueued + [item])
  }

  /** Only the exact selected item leaves, from the head of whichever buffer holds it. */
  function DropBuffered(c: Co, item: Item, admitted: bool): Co {
    if |c.steering| > 0 && c.steering[0] == item then
      c.(steering := c.steering[1..], leftSteering := c.leftSteering + [Left(item, admitted)])
    else if |c.queued| > 0 && c.queued[0] == item then
      c.(queued := c.queued[1..], leftQueued := c.leftQueued + [Left(item, admitted)])
    else c
  }

  function AllLeft(items: seq<Item>): seq<Left> {
    seq(|items|, i requires 0 <= i < |items| => Left(items[i], false))
  }

  function Discard(c: Co): Co {
    c.(steering := [], queued := [],
       leftSteering := c.leftSteering + AllLeft(c.steering), leftQueued := c.leftQueued + AllLeft(c.queued))
  }

  /** One pass of the drain loop's head: what the completion owner does next. */
  function Scan(c: Co, r: RunId): Co {
    if !c.live then Discard(c).(holder := Free, retiring := c.retiring + {r})
    else if c.current.Some? then c.(holder := Free, retiring := c.retiring + {r})
    else if |c.steering| > 0 then c.(holder := Completing(r, Delivering(c.steering[0])))
    else if |c.queued| > 0 then c.(holder := Completing(r, Delivering(c.queued[0])))
    else c.(run := if c.run == Some(r) then None else c.run, holder := Free, retiring := c.retiring + {r})
  }

  function Install(c: Co, r: RunId): Co {
    c.(run := Some(r), executing := c.executing + {r}, used := c.used + {r})
  }

  datatype Step =
    | Reserve
    | Unreserve
    | Submit(item: Item, mode: Mode)
    | AdmitIdle
    | Publish(op: OpId)
    | AdmissionFails
    | Start(run: RunId)
    | Steer(item: Item)
    | EffectTerminal
    | Finish(run: RunId)
    | FinishUnreserved(run: RunId, settles: bool)
    | Settle(settles: bool)
    | ScanStep
    | Deliver(op: OpId)
    | DeliveryFails
    | StartSuccessor(run: RunId)
    | Retire(run: RunId)
    | HarnessLoss
    | LossDiscards
    | CloseChild
    | Archive
    | Reopen
    | Delete

  /** The run in the completion owner's hands. */
  predicate CompletingAt(c: Co, stage: Stage) {
    c.holder.Completing? && c.holder.stage == stage
  }

  function Next(c: Co, step: Step): Option<Co> {
    match step
    case Reserve =>
      if c.holder == Free then Some(c.(holder := Reserved)) else None
    case Unreserve =>
      if c.holder == Reserved then Some(c.(holder := Free)) else None
    case Submit(item, mode) =>
      if c.holder == Reserved && Receivable(c) && Active(c) && NewItem(c, item) then
        Some(if mode == Regular then EnqueueSteering(c, item) else EnqueueQueued(c, item))
      else None
    case AdmitIdle =>
      if c.holder == Reserved && Receivable(c) && !Active(c) then Some(c.(holder := Admitting)) else None
    case Publish(o) =>
      if c.holder == Admitting && c.current.None? then Some(c.(current := Some(o), holder := Adopted(o))) else None
    case AdmissionFails =>
      if c.holder == Admitting then Some(c.(holder := Free)) else None
    case Start(r) =>
      if c.holder.Adopted? && r !in c.used then Some(Install(c, r).(holder := Free)) else None
    case Steer(item) =>
      if Receivable(c) && Active(c) && NewItem(c, item) then Some(EnqueueSteering(c, item)) else None
    case EffectTerminal =>
      if c.run.Some? && c.run.value in c.executing then Some(c.(current := None)) else None
    case Finish(r) =>
      if r in c.executing && c.holder == Free then
        Some(c.(holder := Completing(r, Settling), executing := c.executing - {r}))
      else None
    case FinishUnreserved(r, settles) =>
      if r in c.executing && !c.live then
        Some(c.(executing := c.executing - {r}, retiring := c.retiring + {r}, current := if settles then None else c.current))
      else None
    case Settle(settles) =>
      if CompletingAt(c, Settling) then
        Some(c.(holder := Completing(c.holder.run, Scanning), current := if settles then None else c.current))
      else None
    case ScanStep =>
      if CompletingAt(c, Scanning) then Some(Scan(c, c.holder.run)) else None
    case Deliver(o) =>
      if c.holder.Completing? && c.holder.stage.Delivering? && c.current.None? then
        Some(DropBuffered(c, c.holder.stage.item, true).(current := Some(o), holder := Completing(c.holder.run, Starting(o)),
                                                          delivered := c.delivered + [c.holder.stage.item]))
      else None
    case DeliveryFails =>
      if c.holder.Completing? && c.holder.stage.Delivering? then
        Some(DropBuffered(c, c.holder.stage.item, false).(holder := Completing(c.holder.run, Scanning)))
      else None
    case StartSuccessor(r) =>
      if c.holder.Completing? && c.holder.stage.Starting? && r !in c.used then
        Some(Install(c, r).(holder := Free, retiring := c.retiring + {c.holder.run}))
      else None
    case Retire(r) =>
      if r in c.retiring then
        Some(c.(run := if c.run == Some(r) then None else c.run, retiring := c.retiring - {r}))
      else None
    case HarnessLoss => Some(c.(live := false))
    case LossDiscards => if c.live then None else Some(Discard(c))
    case CloseChild => Some(Discard(c).(closed := true))
    case Archive => if c.holder == Free && !c.gone && Quiescent(c) then Some(c.(open := false)) else None
    case Reopen => if c.holder == Free && !c.gone then Some(c.(open := true)) else None
    case Delete => if c.holder == Free && !c.gone && !c.open then Some(Discard(c).(gone := true)) else None
  }

  function Run(c: Co, steps: seq<Step>): Option<Co> {
    if |steps| == 0 then Some(c)
    else
      var before := Run(c, steps[..|steps| - 1]);
      if before.None? then None else Next(before.value, steps[|steps| - 1])
  }

  // ---- What every interleaving keeps ------------------------------------------------

  function Items(left: seq<Left>): seq<Item> {
    seq(|left|, i requires 0 <= i < |left| => left[i].item)
  }

  predicate Distinct(items: seq<Item>) {
    forall i, j :: 0 <= i < j < |items| ==> items[i] != items[j]
  }

  /** While the Harness lives, a waiting message has an Operation or a run ahead of it. */
  predicate NoLostMessage(c: Co) {
    c.live && (c.steering != [] || c.queued != []) ==> Active(c)
  }

  /** At most one execution runs or completes, and it is the installed one. */
  ghost predicate SlotOk(c: Co) {
    && (forall r :: r in c.executing ==> c.run == Some(r))
    && (c.holder.Completing? ==> c.run == Some(c.holder.run) && c.executing == {})
    && (c.holder == Admitting ==> c.run.None? && c.current.None?)
    && (c.holder.Adopted? ==> c.run.None? && c.current.Some?)
    && (c.holder.Completing? && c.holder.stage.Starting? ==> c.current.Some?)
    && (forall r :: r in c.retiring && c.run == Some(r) && c.live ==> c.current.Some?)
    && (forall r :: r in c.retiring ==> r !in c.executing)
    && (c.holder.Completing? ==> c.holder.run !in c.retiring)
    && c.executing <= c.used && c.retiring <= c.used && (c.run.Some? ==> c.run.value in c.used)
  }

  /** Each buffer is its joined items less those that left, in order; nothing joins twice. */
  predicate BuffersOk(c: Co) {
    && c.joinedSteering == Items(c.leftSteering) + c.steering
    && c.joinedQueued == Items(c.leftQueued) + c.queued
    && Distinct(c.joinedSteering) && Distinct(c.joinedQueued)
    && (forall i :: i in c.joinedSteering ==> i !in c.joinedQueued)
  }

  /** The selected head stays at the head until its delivery is resolved, unless the
      buffers were discarded meanwhile; it has not been delivered before. */
  predicate SelectionOk(c: Co) {
    c.holder.Completing? && c.holder.stage.Delivering? ==>
      var item := c.holder.stage.item;
      && (item in c.joinedSteering || item in c.joinedQueued)
      && item !in c.delivered
      && (item in c.steering ==> c.steering[0] == item) && (item in c.queued ==> c.queued[0] == item)
      && (!c.closed && c.live ==> item in c.steering || item in c.queued)
  }

  /** A permanently closed, archived or deleted Session buffers nothing; a deletion leaves
      it archived, and an archived one runs nothing. */
  predicate RefusedOk(c: Co) {
    && (c.closed || !c.open ==> c.steering == [] && c.queued == [])
    && (c.gone ==> !c.open)
    && (!c.open ==> !Active(c) && c.executing == {} && (c.holder == Free || c.holder == Reserved))
  }

  /** A delivered item is out of both buffers for good. */
  predicate DeliveredOk(c: Co) {
    Distinct(c.delivered) &&
    forall x :: x in c.delivered ==> (x in c.joinedSteering || x in c.joinedQueued) && x !in c.steering && x !in c.queued
  }

  ghost predicate Inv(c: Co) {
    NoLostMessage(c) && SlotOk(c) && BuffersOk(c) && SelectionOk(c) && DeliveredOk(c) && RefusedOk(c)
  }

  lemma ItemsSnoc(left: seq<Left>, l: Left)
    ensures Items(left + [l]) == Items(left) + [l.item]
  {
  }

  lemma DiscardKeeps(c: Co)
    requires BuffersOk(c)
    ensures BuffersOk(Discard(c))
  {
    var d := Discard(c);
    assert Items(d.leftSteering) == Items(c.leftSteering) + c.steering;
    assert Items(d.leftQueued) == Items(c.leftQueued) + c.queued;
  }

  lemma DropKeeps(c: Co, item: Item, admitted: bool)
    requires BuffersOk(c)
    ensures BuffersOk(DropBuffered(c, item, admitted))
  {
    ItemsSnoc(c.leftSteering, Left(item, admitted));
    ItemsSnoc(c.leftQueued, Left(item, admitted));
    var d := DropBuffered(c, item, admitted);
    if |c.steering| > 0 && c.steering[0] == item {
      assert Items(c.leftSteering) + c.steering == Items(d.leftSteering) + d.steering;
    } else if |c.queued| > 0 && c.queued[0] == item {
      assert Items(c.leftQueued) + c.queued == Items(d.leftQueued) + d.queued;
    }
  }

  lemma EnqueueKeeps(c: Co, item: Item)
    requires BuffersOk(c) && NewItem(c, item)
    ensures BuffersOk(EnqueueSteering(c, item)) && BuffersOk(EnqueueQueued(c, item))
  {
    assert c.joinedSteering + [item] == Items(c.leftSteering) + (c.steering + [item]);
    assert c.joinedQueued + [item] == Items(c.leftQueued) + (c.queued + [item]);
  }

  lemma BuffersKeep(c: Co, step: Step)
    requires BuffersOk(c) && Next(c, step).Some?
    ensures BuffersOk(Next(c, step).value)
  {
    hide BuffersOk, Distinct;
    match step
    case Submit(item, mode) => EnqueueKeeps(c, item);
    case Steer(item) => EnqueueKeeps(c, item);
    case ScanStep =>
      DiscardKeeps(c);
      SameBuffers(if c.live then c else Discard(c), Next(c, step).value);
    case Deliver(_) =>
      DropKeeps(c, c.holder.stage.item, true);
      SameBuffers(DropBuffered(c, c.holder.stage.item, true), Next(c, step).value);
    case DeliveryFails =>
      DropKeeps(c, c.holder.stage.item, false);
      SameBuffers(DropBuffered(c, c.holder.stage.item, false), Next(c, step).value);
    case LossDiscards =>
      DiscardKeeps(c);
    case Delete =>
      DiscardKeeps(c);
      SameBuffers(Discard(c), Next(c, step).value);
    case CloseChild =>
      DiscardKeeps(c);
      SameBuffers(Discard(c), Next(c, step).value);
    case _ => SameBuffers(c, Next(c, step).value);
  }

  lemma SameBuffers(c: Co, d: Co)
    requires BuffersOk(c)
    ensures (d.steering == c.steering && d.queued == c.queued && d.joinedSteering == c.joinedSteering &&
             d.leftSteering == c.leftSteering && d.joinedQueued == c.joinedQueued && d.leftQueued == c.leftQueued) ==> BuffersOk(d)
  {
  }

  lemma DropKeepsSlots(c: Co, item: Item, admitted: bool)
    ensures var d := DropBuffered(c, item, admitted);
            && d.current == c.current && d.run == c.run && d.holder == c.holder && d.live == c.live
            && d.executing == c.executing && d.retiring == c.retiring && d.used == c.used
  {
  }

  lemma SlotKeeps(c: Co, step: Step)
    requires SlotOk(c) && Next(c, step).Some?
    ensures SlotOk(Next(c, step).value)
  {
    hide DropBuffered, NewItem, AllLeft;
    if step.Deliver? {
      DropKeepsSlots(c, c.holder.stage.item, true);
    } else if step.DeliveryFails? {
      DropKeepsSlots(c, c.holder.stage.item, false);
    }
  }

  lemma WaitingKeeps(c: Co, step: Step)
    requires Inv(c) && Next(c, step).Some?
    ensures NoLostMessage(Next(c, step).value)
    ensures RefusedOk(Next(c, step).value)
  {
    hide BuffersOk, SelectionOk, DeliveredOk;
  }

  /** A buffer holds each item once, and an item sits in one buffer only. */
  lemma BuffersDistinct(c: Co)
    requires BuffersOk(c)
    ensures Distinct(c.steering) && Distinct(c.queued) && forall x :: x in c.steering ==> x !in c.queued
    ensures forall x :: x in c.steering ==> x in c.joinedSteering
    ensures forall x :: x in c.queued ==> x in c.joinedQueued
  {
    SuffixDistinct(Items(c.leftSteering), c.steering);
    SuffixDistinct(Items(c.leftQueued), c.queued);
  }

  lemma SuffixDistinct(front: seq<Item>, back: seq<Item>)
    requires Distinct(front + back)
    ensures Distinct(back) && forall x :: x in back ==> x in front + back
  {
    assert forall i :: 0 <= i < |back| ==> back[i] == (front + back)[|front| + i];
  }

  lemma DropRemoves(c: Co, item: Item, admitted: bool)
    requires BuffersOk(c) && (item in c.steering ==> c.steering[0] == item) && (item in c.queued ==> c.queued[0] == item)
    ensures var d := DropBuffered(c, item, admitted);
            && item !in d.steering && item !in d.queued
            && (forall x :: x in d.steering ==> x in c.steering) && (forall x :: x in d.queued ==> x in c.queued)
  {
    BuffersDistinct(c);
  }

  predicate Delivery(step: Step) {
    step.Deliver? || step.DeliveryFails?
  }

  /** Resolving a delivery ends its selection. */
  lemma ResolvedKeeps(c: Co, step: Step)
    requires Inv(c) && Delivery(step) && Next(c, step).Some?
    ensures SelectionOk(Next(c, step).value) && DeliveredOk(Next(c, step).value)
  {
    hide SlotOk, NoLostMessage, BuffersOk, DropBuffered;
    DropRemoves(c, c.holder.stage.item, step.Deliver?);
    DropKeepsRest(c, c.holder.stage.item, step.Deliver?);
  }

  predicate Buffering(step: Step) {
    step.Submit? || step.Steer? || step.ScanStep? || step.CloseChild? || step.Delete? ||
    step.LossDiscards?
  }

  lemma BufferingKeeps(c: Co, step: Step)
    requires Inv(c) && Buffering(step) && Next(c, step).Some?
    ensures SelectionOk(Next(c, step).value) && DeliveredOk(Next(c, step).value)
  {
    hide SlotOk, NoLostMessage, BuffersOk;
    BuffersDistinct(c);
  }

  lemma DeliveriesKeep(c: Co, step: Step)
    requires Inv(c) && Next(c, step).Some?
    ensures SelectionOk(Next(c, step).value) && DeliveredOk(Next(c, step).value)
  {
    hide SlotOk, NoLostMessage, BuffersOk, Distinct;
    if Delivery(step) {
      ResolvedKeeps(c, step);
    } else if Buffering(step) {
      BufferingKeeps(c, step);
    }
  }

  lemma DropKeepsRest(c: Co, item: Item, admitted: bool)
    ensures var d := DropBuffered(c, item, admitted);
            d.joinedSteering == c.joinedSteering && d.joinedQueued == c.joinedQueued && d.delivered == c.delivered
  {
  }

  lemma StepKeeps(c: Co, step: Step)
    requires Inv(c) && Next(c, step).Some?
    ensures Inv(Next(c, step).value)
  {
    hide Next, SlotOk, BuffersOk, NoLostMessage, SelectionOk, DeliveredOk, RefusedOk;
    BuffersKeep(c, step);
    SlotKeeps(c, step);
    WaitingKeeps(c, step);
    DeliveriesKeep(c, step);
  }

  /** In every interleaving, while the Harness lives, non-empty buffers imply a current
      Operation or an installed run, and both buffers keep their order. */
  lemma {:induction false} EveryInterleaving(steps: seq<Step>)
    requires Run(Initial(), steps).Some?
    ensures Inv(Run(Initial(), steps).value)
  {
    if |steps| > 0 {
      EveryInterleaving(steps[..|steps| - 1]);
      StepKeeps(Run(Initial(), steps[..|steps| - 1]).value, steps[|steps| - 1]);
    }
  }

  /** Items leave each buffer in the order they joined it, each at most once, so none is
      admitted twice. */
  lemma LeavesInOrder(steps: seq<Step>, i: nat, j: nat)
    requires Run(Initial(), steps).Some?
    ensures var c := Run(Initial(), steps).value;
            && Items(c.leftSteering) <= c.joinedSteering && Items(c.leftQueued) <= c.joinedQueued
            && (i < j < |c.leftSteering| ==> c.leftSteering[i].item != c.leftSteering[j].item)
            && (i < j < |c.leftQueued| ==> c.leftQueued[i].item != c.leftQueued[j].item)
            && (i < |c.leftSteering| && j < |c.leftQueued| ==> c.leftSteering[i].item != c.leftQueued[j].item)
  {
    EveryInterleaving(steps);
    var c := Run(Initial(), steps).value;
    LeftJoined(c);
  }

  lemma LeftJoined(c: Co)
    requires BuffersOk(c)
    ensures forall i :: 0 <= i < |c.leftSteering| ==> i < |c.joinedSteering| && c.joinedSteering[i] == c.leftSteering[i].item
    ensures forall i :: 0 <= i < |c.leftQueued| ==> i < |c.joinedQueued| && c.joinedQueued[i] == c.leftQueued[i].item
    ensures forall i :: 0 <= i < |c.leftSteering| ==> c.leftSteering[i].item in c.joinedSteering
    ensures forall i :: 0 <= i < |c.leftQueued| ==> c.leftQueued[i].item in c.joinedQueued
    ensures forall x :: x in c.steering ==> x in c.joinedSteering
    ensures forall x :: x in c.queued ==> x in c.joinedQueued
  {
    forall i | 0 <= i < |c.leftSteering| ensures i < |c.joinedSteering| && c.joinedSteering[i] == c.leftSteering[i].item {
      assert Items(c.leftSteering)[i] == c.leftSteering[i].item;
    }
    forall i | 0 <= i < |c.leftQueued| ensures i < |c.joinedQueued| && c.joinedQueued[i] == c.leftQueued[i].item {
      assert Items(c.leftQueued)[i] == c.leftQueued[i].item;
    }
  }

  /** No buffered item is admitted twice. */
  lemma DeliveredOnce(steps: seq<Step>)
    requires Run(Initial(), steps).Some?
    ensures Distinct(Run(Initial(), steps).value.delivered)
  {
    EveryInterleaving(steps);
  }

  /** An admission removes exactly the selected head; where a closure or the Harness loss
      emptied the buffers after the selection, it removes nothing. */
  lemma DeliversTheHead(c: Co, o: OpId)
    requires Inv(c) && Next(c, Deliver(o)).Some?
    ensures var item, d := c.holder.stage.item, Next(c, Deliver(o)).value;
            || (c.steering == [item] + d.steering && d.leftSteering == c.leftSteering + [Left(item, true)] && d.queued == c.queued)
            || (c.queued == [item] + d.queued && d.leftQueued == c.leftQueued + [Left(item, true)] && d.steering == c.steering)
            || ((c.closed || !c.live) && item !in c.steering && item !in c.queued &&
                d.steering == c.steering && d.queued == c.queued && d.leftSteering == c.leftSteering && d.leftQueued == c.leftQueued)
  {
    var item := c.holder.stage.item;
    if |c.steering| > 0 && c.steering[0] == item {
      assert c.steering == [item] + c.steering[1..];
    } else if |c.queued| > 0 && c.queued[0] == item {
      assert c.queued == [item] + c.queued[1..];
    }
  }

  lemma SteeringFirst(c: Co)
    requires Inv(c) && Next(c, ScanStep).Some?
    ensures var d := Next(c, ScanStep).value;
            d.holder.Completing? && d.holder.stage.Delivering? && d.holder.stage.item in c.queued ==> c.steering == []
  {
    LeftJoined(c);
  }

  // ---- Which buffer an item joins -----------------------------------------------------

  /** What a step adds to each buffer's history. */
  lemma StepJoins(c: Co, step: Step)
    requires Next(c, step).Some?
    ensures var d := Next(c, step).value;
            && d.joinedSteering == (match step
                                    case Submit(item, Regular) => c.joinedSteering + [item]
                                    case Steer(item) => c.joinedSteering + [item]
                                    case _ => c.joinedSteering)
            && d.joinedQueued == (match step
                                  case Submit(item, Queued) => c.joinedQueued + [item]
                                  case _ => c.joinedQueued)
  {
    hide NewItem, DropBuffered, AllLeft;
    if Delivery(step) {
      DropKeepsRest(c, c.holder.stage.item, step.Deliver?);
    }
  }

  /** The items a run submits in queued mode, in order. */
  function QueuedIn(steps: seq<Step>): seq<Item> {
    if |steps| == 0 then []
    else
      QueuedIn(steps[..|steps| - 1])
      + match steps[|steps| - 1]
        case Submit(item, Queued) => [item]
        case _ => []
  }

  /** The items a run submits as regular messages or steers, in order. */
  function SteeredIn(steps: seq<Step>): seq<Item> {
    if |steps| == 0 then []
    else
      SteeredIn(steps[..|steps| - 1])
      + match steps[|steps| - 1]
        case Submit(item, Regular) => [item]
        case Steer(item) => [item]
        case _ => []
  }

  /** In every interleaving exactly the queued-mode submissions join the queue, and exactly
      the regular ones and the steered completions join the steering buffer, in order. */
  lemma {:induction false} JoinsByMode(steps: seq<Step>, item: Item)
    requires Run(Initial(), steps).Some?
    ensures var c := Run(Initial(), steps).value;
            && c.joinedQueued == QueuedIn(steps) && c.joinedSteering == SteeredIn(steps)
            && (item in c.joinedQueued <==> Submit(item, Queued) in steps)
            && (item in c.joinedSteering <==> Submit(item, Regular) in steps || Steer(item) in steps)
  {
    hide Next;
    if |steps| > 0 {
      var front, last := steps[..|steps| - 1], steps[|steps| - 1];
      JoinsByMode(front, item);
      StepJoins(Run(Initial(), front).value, last);
      assert steps == front + [last];
    }
  }

  /** An item submitted for the queue never steers, and one submitted as regular never queues. */
  lemma ModesApart(steps: seq<Step>, item: Item)
    requires Run(Initial(), steps).Some?
    ensures Submit(item, Queued) in steps ==> item !in Run(Initial(), steps).value.joinedSteering
    ensures Submit(item, Regular) in steps || Steer(item) in steps ==> item !in Run(Initial(), steps).value.joinedQueued
  {
    JoinsByMode(steps, item);
    EveryInterleaving(steps);
  }

  /** A final failure removes exactly the selected head, unadmitted. */
  lemma FailureDropsTheHead(c: Co)
    requires Inv(c) && Next(c, DeliveryFails).Some?
    ensures var item, d := c.holder.stage.item, Next(c, DeliveryFails).value;
            && d.current == c.current && d.delivered == c.delivered
            && (|| (c.steering == [item] + d.steering && d.leftSteering == c.leftSteering + [Left(item, false)] && d.queued == c.queued)
                || (c.queued == [item] + d.queued && d.leftQueued == c.leftQueued + [Left(item, false)] && d.steering == c.steering)
                || ((c.closed || !c.live) && item !in c.steering && item !in c.queued && d.steering == c.steering && d.queued == c.queued))
  {
    var item := c.holder.stage.item;
    if |c.steering| > 0 && c.steering[0] == item {
      assert c.steering == [item] + c.steering[1..];
    } else if |c.queued| > 0 && c.queued[0] == item {
      assert c.queued == [item] + c.queued[1..];
    }
  }

  // ---- The coordinator cell ------------------------------------------------------------

  class Cell {
    var live: bool
    var open: bool
    var closed: bool
    var gone: bool
    var current: Option<OpId>
    var run: Option<RunId>
    var steering: seq<Item>
    var queued: seq<Item>
    var holder: Holder
    var executing: set<RunId>
    var retiring: set<RunId>
    var used: set<RunId>
    ghost var joinedSteering: seq<Item>
    ghost var leftSteering: seq<Left>
    ghost var joinedQueued: seq<Item>
    ghost var leftQueued: seq<Left>
    ghost var delivered: seq<Item>

    ghost function State(): Co
      reads this
    {
      Co(live, open, closed, gone, current, run, steering, queued, holder, executing, retiring, used,
         joinedSteering, leftSteering, joinedQueued, leftQueued, delivered)
    }

    constructor ()
      ensures State() == Initial()
    {
      live, open, closed, gone, current, run := true, true, false, false, None, None;
      steering, queued, holder, executing, retiring, used := [], [], Free, {}, {}, {};
      joinedSteering, leftSteering, joinedQueued, leftQueued, delivered := [], [], [], [], [];
    }

    /** The one attempt of the reservation loop under the mutex. */
    method TryReserve() returns (held: bool)
      modifies this`holder
      ensures held <==> old(holder) == Free
      ensures held ==> holder == Reserved
      ensures held ==> Some(State()) == Next(old(State()), Reserve)
      ensures !held ==> State() == old(State())
    {
      held := holder == Free;
      if held {
        holder := Reserved;
      }
    }

    /** Submit's routing hold under the reservation: refuse, buffer by mode while active,
        or go on to admit. */
    method Route(item: Item, mode: Mode) returns (buffered: bool, refused: bool)
      requires holder == Reserved && NewItem(State(), item)
      modifies this
      ensures refused <==> old(gone) || !old(open) || old(closed) || !old(live)
      ensures buffered <==> !refused && (old(current).Some? || old(run).Some?)
      ensures buffered && mode == Queued ==> queued == old(queued) + [item] && steering == old(steering)
      ensures buffered && mode == Regular ==> steering == old(steering) + [item] && queued == old(queued)
      ensures !buffered ==> steering == old(steering) && queued == old(queued)
      ensures !buffered && !refused ==> holder == Admitting
      ensures refused ==> State() == old(State())
      ensures !refused ==> Some(State()) == Next(old(State()), if buffered then Submit(item, mode) else AdmitIdle)
    {
      if gone || !open || closed || !live {
        return false, true;
      }
      if current.Some? || run.Some? {
        if mode == Queued {
          queued := queued + [item];
          joinedQueued := joinedQueued + [item];
        } else {
          steering := steering + [item];
          joinedSteering := joinedSteering + [item];
        }
        return true, false;
      }
      holder := Admitting;
      return false, false;
    }

    /** A background completion's hold: a Session that cannot receive it closes it whatever
        runs, an active one steers it under the same hold, an idle one admits it. */
    method BackgroundDeliveryPriority(item: Item) returns (mode: Priority)
      requires NewItem(State(), item) && RefusedOk(State())
      modifies this`steering, this`joinedSteering
      ensures mode == DeliverClosed <==> !old(live) || !old(open) || old(closed)
      ensures mode == DeliverIdle <==> old(live) && old(open) && !old(closed) && old(current).None? && old(run).None?
      ensures steering == if mode == DeliverSteering then old(steering) + [item] else old(steering)
      ensures mode == DeliverSteering ==> Some(State()) == Next(old(State()), Steer(item))
      ensures mode != DeliverSteering ==> State() == old(State())
    {
      if !live || !open || closed {
        return DeliverClosed;
      }
      if current.Some? || run.Some? {
        steering := steering + [item];
        joinedSteering := joinedSteering + [item];
        return DeliverSteering;
      }
      return DeliverIdle;
    }

    method DropBufferedLocked(item: Item, ghost admitted: bool) returns (dropped: bool)
      modifies this
      ensures State() == DropBuffered(old(State()), item, admitted)
      ensures dropped <==> (|old(steering)| > 0 && old(steering)[0] == item) || (|old(queued)| > 0 && old(queued)[0] == item)
      ensures if |old(steering)| > 0 && old(steering)[0] == item then old(steering) == [item] + steering && queued == old(queued)
              else if dropped then old(queued) == [item] + queued && steering == old(steering)
              else steering == old(steering) && queued == old(queued)
    {
      if |steering| > 0 && steering[0] == item {
        steering := steering[1..];
        leftSteering := leftSteering + [Left(item, admitted)];
        return true;
      }
      if |queued| > 0 && queued[0] == item {
        queued := queued[1..];
        leftQueued := leftQueued + [Left(item, admitted)];
        return true;
      }
      return false;
    }

    /** The admission's view adoption publishes removal of the selected head. */
    method AdoptDelivery(o: OpId)
      requires holder.Completing? && holder.stage.Delivering? && current.None?
      modifies this
      ensures Some(State()) == Next(old(State()), Deliver(o))
      ensures current == Some(o)
    {
      var dropped := DropBufferedLocked(holder.stage.item, true);
      delivered := delivered + [holder.stage.item];
      current := Some(o);
      holder := Completing(holder.run, Starting(o));
    }

    /** Clears both buffers. */
    method DiscardBuffers() returns (changed: bool)
      modifies this`steering, this`queued, this`leftSteering, this`leftQueued
      ensures State() == Discard(old(State())) && steering == [] && queued == []
      ensures changed <==> old(steering) != [] || old(queued) != []
    {
      changed := |steering| > 0 || |queued| > 0;
      leftSteering, leftQueued := leftSteering + AllLeft(steering), leftQueued + AllLeft(queued);
      steering, queued := [], [];
    }

    /** The permanent closure of a stopped child, with its buffers. */
    method CloseChild()
      modifies this
      ensures Some(State()) == Next(old(State()), Step.CloseChild)
      ensures closed && steering == [] && queued == []
    {
      var discarded := DiscardBuffers();
      closed := true;
    }

    /** The completion owner releases the reservation and goes on to retire. */
    method ReleaseCompletion(r: RunId)
      modifies this`holder, this`retiring
      ensures State() == old(State()).(holder := Free, retiring := old(retiring) + {r})
    {
      holder, retiring := Free, retiring + {r};
    }

    /** One scan of the drain loop. */
    method ScanBuffers()
      requires CompletingAt(State(), Scanning)
      modifies this
      ensures State() == Scan(old(State()), old(holder).run)
      ensures live == old(live) && current == old(current)
      ensures !live ==> steering == [] && queued == [] && holder == Free
      ensures live && current.Some? ==> holder == Free && run == old(run)
      ensures live && current.None? && |old(steering)| > 0 ==> holder == Completing(old(holder).run, Delivering(old(steering)[0]))
      ensures live && current.None? && old(steering) == [] && |old(queued)| > 0 ==>
                holder == Completing(old(holder).run, Delivering(old(queued)[0]))
      ensures live && current.None? && old(steering) == [] && old(queued) == [] ==> holder == Free && run != Some(old(holder).run)
      ensures live ==> steering == old(steering) && queued == old(queued)
    {
      hide Discard, Distinct;
      var r := holder.run;
      if !live {
        var changed := DiscardBuffers();
        ReleaseCompletion(r);
      } else if current.Some? {
        ReleaseCompletion(r);
      } else if |steering| > 0 {
        holder := Completing(r, Delivering(steering[0]));
      } else if |queued| > 0 {
        holder := Completing(r, Delivering(queued[0]));
      } else {
        if run == Some(r) {
          run := None;
        }
        ReleaseCompletion(r);
      }
    }

    /** The retirement tail clears only its own slot. */
    method RetireRun(r: RunId)
      requires r in retiring
      modifies this
      ensures Some(State()) == Next(old(State()), Retire(r))
      ensures run == if old(run) == Some(r) then None else old(run)
    {
      if run == Some(r) {
        run := None;
      }
      retiring := retiring - {r};
    }
  }
}
