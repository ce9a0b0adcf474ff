/** One Session's background ownership group and the delivery of its completions
    (harness/background.go), interleaved with its coordinator. Every caller that wins a
    member's claim walks its own stages; the two settlement triggers of a launched child
    race for its one pending completion; admissions, runs, closure, archive, deletion and
    Harness loss fall between any two of these sections. */
module Background {
  import opened Records
  import C = Coordinator

  type CompletionId = OpId
  type CallId = nat
  type ChildId = nat
  type TriggerId = nat

  datatype GroupState = Open | Stopping | Closed
  datatype Kind = Child | Job
  datatype Member = Member(kind: Kind, claimed: bool)

  /** `members` are the live members, claimed or not. The histories record every admission,
      every won claim and every closed `done`. */
  datatype Group = Group(
    child: bool,
    state: GroupState,
    members: map<CompletionId, Member>,
    snapshot: Option<set<CompletionId>>,
    admitted: set<CompletionId>,
    claims: seq<CompletionId>,
    finished: seq<CompletionId>)

  /** What a caller does with a won claim: deliver the completion, or release the member. */
  datatype Intent = ToDeliver | ToRelease

  /** How far a claim's winner has come. `Holding`, `Admitting`, `Installing`, `Releasing`
      and a held `Signalling` are inside the admission reservation. */
  datatype Stage =
    | Claimed
    | Waiting
    | Holding
    | Admitting
    | Installing
    | Signalling(held: bool)
    | Releasing
    | Ended
    | Finished

  datatype Winner = Winner(id: CompletionId, intent: Intent, stage: Stage)

  datatype Path = AsSignal | AsSteering | AsOperation
  datatype Delivery = Delivery(id: CompletionId, path: Path)

  /** A launched child as its settlement check sees it: its current Operation, whether a
      run is installed, its own live members, and the pending completion. */
  datatype Offspring = Offspring(current: Option<OpId>, run: bool, live: nat, pending: Option<CompletionId>)

  /** One running settlement check: `Checked` has seen the obligation and validates the
      child, `Took` holds what it took, `Over` ended. */
  datatype TriggerStage = Checked | Took(id: CompletionId, intent: Intent) | Over
  datatype Trigger = Trigger(child: ChildId, settled: Option<OpId>, stage: TriggerStage)

  /** `owner` is the caller holding the admission reservation, `carries` the completion of
      each steered item, `deliveries` every steering enqueue, admission and closed signal,
      `operations` every completion admitted as an Operation, `takes` every taken
      obligation. */
  datatype Sys = Sys(
    co: C.Co,
    group: Group,
    calls: map<CallId, Winner>,
    owner: Option<CallId>,
    carries: map<C.Item, CompletionId>,
    children: map<ChildId, Offspring>,
    triggers: map<TriggerId, Trigger>,
    deliveries: seq<Delivery>,
    operations: seq<CompletionId>,
    takes: seq<ChildId>)

  datatype Step =
    | Around(step: C.Step)
    | Admit(id: CompletionId, kind: Kind, cap: nat)
    | Claim(call: CallId, id: CompletionId, intent: Intent)
    | NoAttempt(call: CallId)
    | Route(call: CallId, item: C.Item)
    | ReserveFails(call: CallId)
    | TakeReservation(call: CallId)
    | Reroute(call: CallId, item: C.Item)
    | AdmissionRefused(call: CallId)
    | AdmitCompletion(call: CallId)
    | InstallRun(call: CallId, run: C.RunId)
    | SignalCloses(call: CallId)
    | SignalFails(call: CallId)
    | Release(call: CallId)
    | Finish(call: CallId)
    | Launch(child: ChildId, id: CompletionId)
    | ChildMoves(child: ChildId, current: Option<OpId>, installed: bool, live: nat)
    | TriggerStarts(trigger: TriggerId, child: ChildId, settled: Option<OpId>)
    | TriggerUnavailable(trigger: TriggerId)
    | TriggerDecides(trigger: TriggerId)
    | TriggerCalls(trigger: TriggerId, call: CallId)
    | StopBegins
    | StopEnds

  function Initial(child: bool): Sys {
    Sys(C.Initial(), Group(child, Open, map[], None, {}, [], []), map[], None, map[], map[], map[], [], [], [])
  }

  // ---- The group -------------------------------------------------------------------------

  predicate Claimable(g: Group, id: CompletionId) {
    id in g.members && !g.members[id].claimed
  }

  function OfKind(members: map<CompletionId, Member>, kind: Kind): set<CompletionId> {
    set id | id in members && members[id].kind == kind
  }

  /** A group below the kind's cap, of an open Session of a live Harness. */
  predicate CanAdmit(c: C.Co, g: Group, kind: Kind, cap: nat) {
    c.open && c.live && g.state == Open && (cap > 0 ==> |OfKind(g.members, kind)| < cap)
  }

  function WithMember(g: Group, id: CompletionId, kind: Kind): Group {
    g.(members := g.members[id := Member(kind, false)], admitted := g.admitted + {id})
  }

  function WithClaim(g: Group, id: CompletionId): Group
    requires id in g.members
  {
    g.(members := g.members[id := g.members[id].(claimed := true)], claims := g.claims + [id])
  }

  /** An already removed member is a no-op. */
  function WithoutMember(g: Group, id: CompletionId): Group {
    if id in g.members then g.(members := g.members - {id}, finished := g.finished + [id]) else g
  }

  /** A child's stop closes it for good; a root's stop lasts until its members converge,
      and is no stop at all with none. */
  function BeginStop(g: Group): Group {
    if g.child then g.(state := Closed, snapshot := Some(g.members.Keys))
    else if |g.members| == 0 then g
    else g.(state := Stopping, snapshot := Some(g.members.Keys))
  }

  predicate Converged(g: Group) {
    g.snapshot.Some? && forall id :: id in g.snapshot.value ==> id in g.finished
  }

  function EndStop(g: Group): Group {
    g.(state := if !g.child && g.state == Stopping then Open else g.state, snapshot := None)
  }

  // ---- Callers -----------------------------------------------------------------------------

  predicate At(s: Sys, call: CallId, stage: Stage) {
    call in s.calls && s.calls[call].stage == stage
  }

  function Move(s: Sys, call: CallId, stage: Stage): Sys
    requires call in s.calls
  {
    s.(calls := s.calls[call := s.calls[call].(stage := stage)])
  }

  function Delivered(s: Sys, id: CompletionId, path: Path): Sys {
    s.(deliveries := s.deliveries + [Delivery(id, path)])
  }

  /** A coordinator section the caller performs. */
  function Through(s: Sys, step: C.Step): Option<Sys> {
    var co := C.Next(s.co, step);
    if co.None? then None else Some(s.(co := co.value))
  }

  function ClaimFor(s: Sys, call: CallId, id: CompletionId, intent: Intent): Sys {
    if Claimable(s.group, id)
    then s.(group := WithClaim(s.group, id), calls := s.calls[call := Winner(id, intent, Claimed)])
    else s
  }

  /** One evaluation of the delivery priority; `held` is the one under the reservation. */
  function Routed(s: Sys, call: CallId, item: C.Item, held: bool): Option<Sys>
    requires call in s.calls
  {
    var id := s.calls[call].id;
    match C.PriorityOf(s.co)
    case DeliverClosed => Some(Move(s, call, Signalling(held)))
    case DeliverSteering =>
      var steered := Through(s, C.Steer(item));
      if steered.None? then None
      else Some(Delivered(Move(steered.value, call, if held then Releasing else Ended), id, AsSteering)
                .(carries := s.carries[item := id]))
    case DeliverIdle =>
      if held then
        var admitting := Through(s, C.AdmitIdle);
        if admitting.None? then None else Some(Move(admitting.value, call, Admitting))
      else Some(Move(s, call, Waiting))
  }

  /** Sections of other callers: those inside the reservation are not theirs while a
      completion's caller holds it, and an archive finds no live member. */
  predicate Others(s: Sys, step: C.Step) {
    match step
    case Steer(_) => false
    case CloseChild => false
    case Archive => |s.group.members| == 0
    case Submit(_, _) => s.owner.None?
    case AdmitIdle => s.owner.None?
    case Unreserve => s.owner.None?
    case Publish(_) => s.owner.None?
    case AdmissionFails => s.owner.None?
    case Start(_) => s.owner.None?
    case _ => true
  }

  function AroundNext(s: Sys, step: C.Step): Option<Sys> {
    if !Others(s, step) then None
    else
      var s' := Through(s, step);
      if s'.None? then None
      else if step.Deliver? && s.co.holder.Completing? && s.co.holder.stage.Delivering? && s.co.holder.stage.item in s.carries then
        Some(s'.value.(operations := s.operations + [s.carries[s.co.holder.stage.item]]))
      else s'
  }

  // ---- Children -------------------------------------------------------------------------------

  predicate Busy(o: Offspring) {
    o.current.Some? || o.run || o.live > 0
  }

  /** The settlement check under the child's mutex: abandon, wait, or take to deliver. */
  function Decision(o: Offspring, settled: Option<OpId>): Option<Intent> {
    if o.pending.None? then None
    else if settled.Some? && settled == o.current then Some(ToRelease)
    else if Busy(o) then None
    else Some(ToDeliver)
  }

  function Take(s: Sys, t: TriggerId, intent: Option<Intent>): Sys
    requires t in s.triggers && s.triggers[t].child in s.children
    requires intent.Some? ==> s.children[s.triggers[t].child].pending.Some?
  {
    var trigger := s.triggers[t];
    var o := s.children[trigger.child];
    if intent.None? then s.(triggers := s.triggers[t := trigger.(stage := Over)])
    else s.(triggers := s.triggers[t := trigger.(stage := Took(o.pending.value, intent.value))],
            children := s.children[trigger.child := o.(pending := None)],
            takes := s.takes + [trigger.child])
  }

  predicate Checking(s: Sys, t: TriggerId) {
    t in s.triggers && s.triggers[t].stage == Checked && s.triggers[t].child in s.children
  }

  // ---- Steps ----------------------------------------------------------------------------------

  function Next(s: Sys, step: Step): Option<Sys> {
    match step
    case Around(c) => AroundNext(s, c)
    case Admit(id, kind, cap) =>
      if CanAdmit(s.co, s.group, kind, cap) && id !in s.group.admitted then Some(s.(group := WithMember(s.group, id, kind))) else None
    case Claim(call, id, intent) => if call in s.calls then None else Some(ClaimFor(s, call, id, intent))
    case NoAttempt(call) => if At(s, call, Claimed) then Some(Move(s, call, Ended)) else None
    case Route(call, item) => if At(s, call, Claimed) && s.calls[call].intent == ToDeliver then Routed(s, call, item, false) else None
    case ReserveFails(call) => if At(s, call, Waiting) && !s.co.live then Some(Move(s, call, Signalling(false))) else None
    case TakeReservation(call) =>
      if !At(s, call, Waiting) then None
      else
        var s' := Through(s, C.Reserve);
        if s'.None? then None else Some(Move(s'.value, call, Holding).(owner := Some(call)))
    case Reroute(call, item) => if At(s, call, Holding) then Routed(s, call, item, true) else None
    case AdmissionRefused(call) =>
      if !At(s, call, Admitting) then None
      else
        var s' := Through(s, C.AdmissionFails);
        if s'.None? then None else Some(Move(s'.value, call, Ended).(owner := None))
    case AdmitCompletion(call) =>
      if !At(s, call, Admitting) then None
      else
        var id := s.calls[call].id;
        var s' := Through(s, C.Publish(id));
        if s'.None? then None
        else Some(Delivered(Move(s'.value, call, Installing), id, AsOperation).(operations := s.operations + [id]))
    case InstallRun(call, r) =>
      if !At(s, call, Installing) then None
      else
        var s' := Through(s, C.Start(r));
        if s'.None? then None else Some(Move(s'.value, call, Ended).(owner := None))
    case SignalCloses(call) =>
      if call in s.calls && s.calls[call].stage.Signalling? then
        Some(Delivered(Move(s, call, if s.calls[call].stage.held then Releasing else Ended), s.calls[call].id, AsSignal))
      else None
    case SignalFails(call) =>
      if call in s.calls && s.calls[call].stage.Signalling? then
        Some(Move(s, call, if s.calls[call].stage.held then Releasing else Ended))
      else None
    case Release(call) =>
      if !At(s, call, Releasing) then None
      else
        var s' := Through(s, C.Unreserve);
        if s'.None? then None else Some(Move(s'.value, call, Ended).(owner := None))
    case Finish(call) =>
      if At(s, call, Ended) then Some(Move(s, call, Finished).(group := WithoutMember(s.group, s.calls[call].id))) else None
    case Launch(child, id) =>
      if child !in s.children && id in s.group.admitted then Some(s.(children := s.children[child := Offspring(None, false, 0, Some(id))]))
      else None
    case ChildMoves(child, current, installed, live) =>
      if child in s.children then
        Some(s.(children := s.children[child := Offspring(current, installed, live, s.children[child].pending)]))
      else None
    case TriggerStarts(t, child, settled) =>
      if t !in s.triggers && child in s.children && s.children[child].pending.Some? then
        Some(s.(triggers := s.triggers[t := Trigger(child, settled, Checked)]))
      else None
    case TriggerUnavailable(t) =>
      if Checking(s, t) then
        Some(Take(s, t, if s.children[s.triggers[t].child].pending.Some? then Some(ToRelease) else None))
      else None
    case TriggerDecides(t) =>
      if Checking(s, t) then Some(Take(s, t, Decision(s.children[s.triggers[t].child], s.triggers[t].settled))) else None
    case TriggerCalls(t, call) =>
      if t in s.triggers && s.triggers[t].stage.Took? && call !in s.calls then
        Some(ClaimFor(s, call, s.triggers[t].stage.id, s.triggers[t].stage.intent)
             .(triggers := s.triggers[t := s.triggers[t].(stage := Over)]))
      else None
    case StopBegins =>
      if s.group.snapshot.Some? then None
      else if s.group.child then
        var s' := Through(s, C.CloseChild);
        if s'.None? then None else Some(s'.value.(group := BeginStop(s.group)))
      else Some(s.(group := BeginStop(s.group)))
    case StopEnds => if Converged(s.group) then Some(s.(group := EndStop(s.group))) else None
  }

  function Run(s: Sys, steps: seq<Step>): Option<Sys> {
    if |steps| == 0 then Some(s)
    else
      var before := Run(s, steps[..|steps| - 1]);
      if before.None? then None else Next(before.value, steps[|steps| - 1])
  }

  // ---- What every interleaving keeps ------------------------------------------------------------

  predicate Distinct<T(==)>(ids: seq<T>) {
    forall i, j :: 0 <= i < j < |ids| ==> ids[i] != ids[j]
  }

  predicate DeliveredBy(deliveries: seq<Delivery>, id: CompletionId) {
    exists i :: 0 <= i < |deliveries| && deliveries[i].id == id
  }

  predicate OneDelivery(deliveries: seq<Delivery>) {
    forall i, j :: 0 <= i < j < |deliveries| ==> deliveries[i].id != deliveries[j].id
  }

  /** The caller has not chosen a delivery yet. */
  predicate Undecided(stage: Stage) {
    stage.Claimed? || stage.Waiting? || stage.Holding? || stage.Admitting? || stage.Signalling?
  }

  /** The caller is inside the admission reservation. */
  predicate Inside(stage: Stage) {
    stage.Holding? || stage.Admitting? || stage.Installing? || stage.Releasing? || (stage.Signalling? && stage.held)
  }

  ghost predicate GroupOk(g: Group) {
    && Distinct(g.claims) && Distinct(g.finished)
    && (forall id :: id in g.members ==> id in g.admitted && id !in g.finished)
    && (forall id :: id in g.admitted ==> id in g.members || id in g.finished)
    && (forall id :: id in g.claims ==> id in g.admitted && (id in g.members ==> g.members[id].claimed))
    && (forall id :: id in g.members && g.members[id].claimed ==> id in g.claims)
    && (forall id :: id in g.finished ==> id in g.claims)
    && (g.child ==> g.state != Stopping)
    && (!g.child ==> g.state != Closed)
    && (!g.child && g.snapshot.Some? ==> g.state == Stopping)
    && (g.state == Stopping ==> g.snapshot.Some?)
    && (g.state != Open && g.snapshot.Some? ==> g.members.Keys <= g.snapshot.value)
  }

  /** The group and its coordinator: closure is the child's stop, and no Session with a
      live member is archived. */
  predicate CellOk(s: Sys) {
    && (s.co.closed <==> s.group.child && s.group.state == Closed)
    && (!s.co.open ==> s.group.members == map[])
  }

  /** One caller per claimed member; the member stays until that caller finishes it. */
  ghost predicate CallersOk(g: Group, calls: map<CallId, Winner>) {
    && (forall c :: c in calls ==> calls[c].id in g.claims &&
                                   (calls[c].stage == Finished ==> calls[c].id !in g.members) &&
                                   (calls[c].stage != Finished ==> calls[c].id in g.members))
    && (forall c, d :: c in calls && d in calls && calls[c].id == calls[d].id ==> c == d)
  }

  /** The reservation's holder, as the coordinator and the owning caller both see it. */
  predicate HolderOk(s: Sys) {
    && (s.owner.Some? ==> s.owner.value in s.calls && Inside(s.calls[s.owner.value].stage))
    && (forall c :: c in s.calls && Inside(s.calls[c].stage) ==> s.owner == Some(c))
    && (s.owner.Some? ==>
          match s.calls[s.owner.value].stage
          case Admitting => s.co.holder == C.Admitting
          case Installing => s.co.holder.Adopted?
          case _ => s.co.holder == C.Reserved)
  }

  /** Each completion is delivered at most once, and by its claim's winner past its
      decision. */
  ghost predicate DeliveriesOk(calls: map<CallId, Winner>, deliveries: seq<Delivery>) {
    && OneDelivery(deliveries)
    && (forall i :: 0 <= i < |deliveries| ==> exists c :: c in calls && calls[c].id == deliveries[i].id)
    && (forall c :: c in calls && Undecided(calls[c].stage) ==> !DeliveredBy(deliveries, calls[c].id))
  }

  /** A steered item carries one completion, delivered as steering. */
  ghost predicate CarriesOk(co: C.Co, carries: map<C.Item, CompletionId>, deliveries: seq<Delivery>) {
    && (forall x :: x in carries ==> x in co.joinedSteering && Delivery(carries[x], AsSteering) in deliveries)
    && (forall x, y :: x in carries && y in carries && carries[x] == carries[y] ==> x == y)
  }

  /** An admitted completion was delivered as an Operation, or steered and drained. */
  ghost predicate OperationsOk(co: C.Co, carries: map<C.Item, CompletionId>, deliveries: seq<Delivery>, operations: seq<CompletionId>) {
    && Distinct(operations)
    && forall id :: id in operations ==>
         Delivery(id, AsOperation) in deliveries || exists x :: x in carries && carries[x] == id && x in co.delivered
  }

  /** Each child's obligation is taken at most once. */
  predicate TakesOk(children: map<ChildId, Offspring>, takes: seq<ChildId>) {
    Distinct(takes) && forall c :: c in takes ==> c in children && children[c].pending.None?
  }

  ghost predicate Inv(s: Sys) {
    && C.Inv(s.co) && GroupOk(s.group) && CellOk(s)
    && CallersOk(s.group, s.calls) && HolderOk(s)
    && DeliveriesOk(s.calls, s.deliveries)
    && CarriesOk(s.co, s.carries, s.deliveries)
    && OperationsOk(s.co, s.carries, s.deliveries, s.operations)
    && TakesOk(s.children, s.takes)
  }

  // ---- The coordinator underneath ----------------------------------------------------------------

  /** The coordinator section a step performs, if it performs one. */
  function CoStep(s: Sys, step: Step): Option<C.Step> {
    match step
    case Around(c) => Some(c)
    case Route(_, item) => if C.PriorityOf(s.co).DeliverSteering? then Some(C.Steer(item)) else None
    case TakeReservation(_) => Some(C.Reserve)
    case Reroute(_, item) =>
      if C.PriorityOf(s.co).DeliverSteering? then Some(C.Steer(item))
      else if C.PriorityOf(s.co).DeliverIdle? then Some(C.AdmitIdle)
      else None
    case AdmissionRefused(_) => Some(C.AdmissionFails)
    case AdmitCompletion(call) => if call in s.calls then Some(C.Publish(s.calls[call].id)) else None
    case InstallRun(_, r) => Some(C.Start(r))
    case Release(_) => Some(C.Unreserve)
    case StopBegins => if s.group.child then Some(C.CloseChild) else None
    case _ => None
  }

  /** Every step is one coordinator section or leaves the coordinator alone. */
  lemma StepIsSection(s: Sys, step: Step)
    requires Next(s, step).Some?
    ensures var co := Next(s, step).value.co;
            if CoStep(s, step).Some? then C.Next(s.co, CoStep(s, step).value) == Some(co) else co == s.co
  {
    hide C.Next;
  }

  /** The group transition a step performs. */
  lemma StepIsGroup(s: Sys, step: Step)
    requires Next(s, step).Some?
    ensures var g := Next(s, step).value.group;
            match step
            case Admit(id, kind, cap) => id !in s.group.admitted && s.group.state == Open && g == WithMember(s.group, id, kind)
            case Claim(_, id, _) => g == if Claimable(s.group, id) then WithClaim(s.group, id) else s.group
            case TriggerCalls(t, _) =>
              && t in s.triggers && s.triggers[t].stage.Took?
              && var id := s.triggers[t].stage.id; g == if Claimable(s.group, id) then WithClaim(s.group, id) else s.group
            case Finish(c) => c in s.calls && g == WithoutMember(s.group, s.calls[c].id)
            case StopBegins => g == BeginStop(s.group)
            case StopEnds => g == EndStop(s.group)
            case _ => g == s.group
  {
    hide C.Next, Others, OfKind;
  }

  lemma DistinctSnoc<T>(ids: seq<T>, id: T)
    requires Distinct(ids) && id !in ids
    ensures Distinct(ids + [id])
  {
  }

  lemma ClaimKeepsGroup(g: Group, id: CompletionId)
    requires GroupOk(g) && Claimable(g, id)
    ensures GroupOk(WithClaim(g, id))
  {
    DistinctSnoc(g.claims, id);
  }

  lemma FinishKeepsGroup(g: Group, id: CompletionId)
    requires GroupOk(g) && id in g.claims
    ensures GroupOk(WithoutMember(g, id))
  {
    if id in g.members {
      DistinctSnoc(g.finished, id);
    }
  }

  lemma StopKeepsGroup(g: Group)
    requires GroupOk(g)
    ensures g.snapshot.None? ==> GroupOk(BeginStop(g))
    ensures Converged(g) ==> GroupOk(EndStop(g))
  {
  }

  lemma GroupKeeps(s: Sys, step: Step)
    requires GroupOk(s.group) && CallersOk(s.group, s.calls) && Next(s, step).Some?
    ensures GroupOk(Next(s, step).value.group)
  {
    hide GroupOk, Distinct;
    StepIsGroup(s, step);
    match step
    case Admit(id, kind, cap) => AdmitKeepsGroup(s.group, id, kind);
    case Claim(_, id, _) =>
      if Claimable(s.group, id) {
        ClaimKeepsGroup(s.group, id);
      }
    case TriggerCalls(t, _) =>
      if Claimable(s.group, s.triggers[t].stage.id) {
        ClaimKeepsGroup(s.group, s.triggers[t].stage.id);
      }
    case Finish(c) => FinishKeepsGroup(s.group, s.calls[c].id);
    case StopBegins => StopKeepsGroup(s.group);
    case StopEnds => StopKeepsGroup(s.group);
    case _ =>
  }

  lemma AdmitKeepsGroup(g: Group, id: CompletionId, kind: Kind)
    requires GroupOk(g) && g.state == Open && id !in g.admitted
    ensures GroupOk(WithMember(g, id, kind))
  {
  }

  lemma SectionKeepsLifecycle(c: C.Co, step: C.Step)
    requires C.Next(c, step).Some?
    ensures var d := C.Next(c, step).value;
            && (d.closed <==> c.closed || step.CloseChild?)
            && (!step.Archive? && c.open ==> d.open)
            && (!step.Reopen? && !c.open ==> !d.open)
  {
    hide C.NewItem, C.DropBuffered, C.AllLeft;
    if c.holder.Completing? && c.holder.stage.Delivering? {
      DropKeepsLifecycle(c, c.holder.stage.item, true);
      DropKeepsLifecycle(c, c.holder.stage.item, false);
    }
  }

  lemma DropKeepsLifecycle(c: C.Co, item: C.Item, admitted: bool)
    ensures var d := C.DropBuffered(c, item, admitted); d.closed == c.closed && d.open == c.open
  {
  }

  lemma CellKeeps(s: Sys, step: Step)
    requires GroupOk(s.group) && CellOk(s) && Next(s, step).Some?
    ensures CellOk(Next(s, step).value)
  {
    hide GroupOk, C.Next;
    StepIsGroup(s, step);
    StepIsSection(s, step);
    if CoStep(s, step).Some? {
      SectionKeepsLifecycle(s.co, CoStep(s, step).value);
    }
    StateMoves(s.group);
    MembersEmpty(s.group);
  }

  lemma MembersEmpty(g: Group)
    ensures |g.members| == 0 <==> g.members == map[]
  {
  }

  lemma StateMoves(g: Group)
    requires GroupOk(g)
    ensures !g.child ==> BeginStop(g).state != Closed && EndStop(g).state != Closed
    ensures g.child ==> BeginStop(g).state == Closed && EndStop(g).state == g.state
    ensures BeginStop(g).members == g.members == EndStop(g).members
    ensures BeginStop(g).child == g.child == EndStop(g).child
  {
  }

  // ---- Callers --------------------------------------------------------------------------------------

  /** The caller whose stage a step changes. */
  function Caller(step: Step): Option<CallId> {
    match step
    case NoAttempt(c) => Some(c)
    case Route(c, _) => Some(c)
    case ReserveFails(c) => Some(c)
    case TakeReservation(c) => Some(c)
    case Reroute(c, _) => Some(c)
    case AdmissionRefused(c) => Some(c)
    case AdmitCompletion(c) => Some(c)
    case InstallRun(c, _) => Some(c)
    case SignalCloses(c) => Some(c)
    case SignalFails(c) => Some(c)
    case Release(c) => Some(c)
    case Finish(c) => Some(c)
    case _ => None
  }

  /** The claim a step attempts. */
  function Claims(s: Sys, step: Step): Option<(CallId, CompletionId, Intent)> {
    match step
    case Claim(c, id, intent) => Some((c, id, intent))
    case TriggerCalls(t, c) =>
      if t in s.triggers && s.triggers[t].stage.Took? then Some((c, s.triggers[t].stage.id, s.triggers[t].stage.intent)) else None
    case _ => None
  }

  /** The same callers, but for the stage of one. */
  predicate OnlyMoves(s: Sys, s': Sys, call: CallId) {
    call in s.calls && call in s'.calls && s'.calls == s.calls[call := s.calls[call].(stage := s'.calls[call].stage)]
  }

  lemma RoutedMoves(s: Sys, call: CallId, item: C.Item, held: bool)
    requires call in s.calls && Routed(s, call, item, held).Some?
    ensures OnlyMoves(s, Routed(s, call, item, held).value, call)
    ensures Routed(s, call, item, held).value.calls[call].stage != Finished
  {
    hide C.Next;
  }

  /** A caller's own step moves its stage alone. */
  lemma CallerMoves(s: Sys, step: Step)
    requires Caller(step).Some? && Next(s, step).Some?
    ensures OnlyMoves(s, Next(s, step).value, Caller(step).value)
    ensures s.calls[Caller(step).value].stage != Finished
    ensures Next(s, step).value.calls[Caller(step).value].stage == Finished <==> step.Finish?
  {
    hide C.Next, Routed, OnlyMoves;
    match step
    case Route(c, item) => RoutedMoves(s, c, item, false);
    case Reroute(c, item) => RoutedMoves(s, c, item, true);
    case _ => SimpleMoves(s, step);
  }

  lemma SimpleMoves(s: Sys, step: Step)
    requires Caller(step).Some? && !step.Route? && !step.Reroute? && Next(s, step).Some?
    ensures OnlyMoves(s, Next(s, step).value, Caller(step).value)
    ensures s.calls[Caller(step).value].stage != Finished
    ensures Next(s, step).value.calls[Caller(step).value].stage == Finished <==> step.Finish?
  {
    hide C.Next, Routed;
  }

  /** Every other step adds at most the winner of a claim. */
  lemma OthersMove(s: Sys, step: Step)
    requires Caller(step).None? && Next(s, step).Some?
    ensures var claim, s' := Claims(s, step), Next(s, step).value;
            if claim.Some? && Claimable(s.group, claim.value.1)
            then claim.value.0 !in s.calls && s'.calls == s.calls[claim.value.0 := Winner(claim.value.1, claim.value.2, Claimed)]
            else s'.calls == s.calls
  {
    hide C.Next, Routed, CanAdmit;
  }

  lemma CallersKeep(s: Sys, step: Step)
    requires GroupOk(s.group) && CallersOk(s.group, s.calls) && Next(s, step).Some?
    ensures CallersOk(Next(s, step).value.group, Next(s, step).value.calls)
  {
    hide Next, Distinct, C.Next;
    StepIsGroup(s, step);
    if Caller(step).Some? {
      CallerMoves(s, step);
    } else {
      OthersMove(s, step);
      var claim := Claims(s, step);
      if claim.Some? && Claimable(s.group, claim.value.1) {
        assert claim.value.1 !in s.group.claims;
        WinnerJoins(s.group, s.calls, claim.value.0, claim.value.1, claim.value.2);
      } else {
        MembersStay(s.group, Next(s, step).value.group, s.calls);
      }
    }
  }

  lemma WinnerJoins(g: Group, calls: map<CallId, Winner>, call: CallId, id: CompletionId, intent: Intent)
    requires CallersOk(g, calls) && Claimable(g, id) && id !in g.claims
    ensures CallersOk(WithClaim(g, id), calls[call := Winner(id, intent, Claimed)])
  {
  }

  lemma MembersStay(g: Group, g': Group, calls: map<CallId, Winner>)
    requires CallersOk(g, calls) && g'.claims == g.claims
    requires forall id :: id in g.claims ==> (id in g'.members <==> id in g.members)
    ensures CallersOk(g', calls)
  {
  }

  /** A caller outside the reservation stays outside it. */
  lemma OutsideKeepsHolder(s: Sys, s': Sys, call: CallId)
    requires HolderOk(s) && OnlyMoves(s, s', call) && s'.owner == s.owner && s'.co.holder == s.co.holder
    requires !Inside(s.calls[call].stage) && !Inside(s'.calls[call].stage)
    ensures HolderOk(s')
  {
  }

  /** The reservation's holder moves on with it. */
  lemma InsideKeepsHolder(s: Sys, s': Sys, call: CallId)
    requires HolderOk(s) && OnlyMoves(s, s', call) && s'.owner == s.owner == Some(call)
    requires Inside(s'.calls[call].stage)
    requires match s'.calls[call].stage
             case Admitting => s'.co.holder == C.Admitting
             case Installing => s'.co.holder.Adopted?
             case _ => s'.co.holder == C.Reserved
    ensures HolderOk(s')
  {
  }

  lemma RoutedKeepsHolder(s: Sys, call: CallId, item: C.Item, held: bool)
    requires HolderOk(s) && call in s.calls && s.calls[call].stage == (if held then Holding else Claimed)
    requires Routed(s, call, item, held).Some?
    ensures HolderOk(Routed(s, call, item, held).value)
  {
    hide HolderOk, C.NewItem, OnlyMoves, Routed;
    RoutedMoves(s, call, item, held);
    if held {
      OwnsReservation(s, call);
      RoutedInside(s, call, item);
      InsideKeepsHolder(s, Routed(s, call, item, held).value, call);
    } else {
      RoutedOutside(s, call, item);
      OutsideKeepsHolder(s, Routed(s, call, item, held).value, call);
    }
  }

  lemma OwnsReservation(s: Sys, call: CallId)
    requires HolderOk(s) && call in s.calls && s.calls[call].stage == Holding
    ensures s.owner == Some(call) && s.co.holder == C.Reserved
  {
  }

  lemma RoutedInside(s: Sys, call: CallId, item: C.Item)
    requires call in s.calls && s.owner == Some(call) && s.co.holder == C.Reserved && Routed(s, call, item, true).Some?
    ensures var s' := Routed(s, call, item, true).value;
            && call in s'.calls && s'.owner == s.owner && Inside(s'.calls[call].stage) && s'.calls[call].stage != Installing
            && s'.co.holder == if s'.calls[call].stage == Admitting then C.Admitting else C.Reserved
  {
    hide C.NewItem;
  }

  lemma RoutedOutside(s: Sys, call: CallId, item: C.Item)
    requires call in s.calls && Routed(s, call, item, false).Some?
    ensures var s' := Routed(s, call, item, false).value;
            call in s'.calls && s'.owner == s.owner && s'.co.holder == s.co.holder && !Inside(s'.calls[call].stage)
  {
    hide C.NewItem;
  }

  lemma CallerKeepsHolder(s: Sys, step: Step)
    requires HolderOk(s) && Caller(step).Some? && Next(s, step).Some?
    ensures HolderOk(Next(s, step).value)
  {
    hide Routed, HolderOk;
    match step
    case Route(c, item) => RoutedKeepsHolder(s, c, item, false);
    case Reroute(c, item) => RoutedKeepsHolder(s, c, item, true);
    case _ => SimpleKeepsHolder(s, step);
  }

  /** A caller that takes the free reservation becomes its holder. */
  lemma TakingKeepsHolder(s: Sys, call: CallId)
    requires HolderOk(s) && Next(s, TakeReservation(call)).Some?
    ensures HolderOk(Next(s, TakeReservation(call)).value)
  {
    var s' := Next(s, TakeReservation(call)).value;
    assert s.co.holder == C.Free && s'.co.holder == C.Reserved;
    assert s.owner.None?;
  }

  /** A caller that leaves the reservation leaves it free of callers. */
  lemma LeavingKeepsHolder(s: Sys, s': Sys, call: CallId)
    requires HolderOk(s) && OnlyMoves(s, s', call) && Inside(s.calls[call].stage)
    requires s'.owner.None? && !Inside(s'.calls[call].stage)
    ensures HolderOk(s')
  {
  }

  predicate Leaves(step: Step) {
    step.AdmissionRefused? || step.InstallRun? || step.Release?
  }

  lemma LeaverMoves(s: Sys, step: Step)
    requires HolderOk(s) && Leaves(step) && Next(s, step).Some?
    ensures var s' := Next(s, step).value;
            s.calls[step.call].stage != Finished && Inside(s.calls[step.call].stage) && s'.owner.None? && At(s', step.call, Ended)
  {
    hide C.Next, HolderOk;
  }

  /** The remaining steps keep the reservation where it is. */
  lemma StayerMoves(s: Sys, step: Step)
    requires HolderOk(s) && Caller(step).Some? && !step.Route? && !step.Reroute? && !step.TakeReservation? && !Leaves(step)
    requires Next(s, step).Some?
    ensures var s', c := Next(s, step).value, Caller(step).value;
            && c in s.calls && c in s'.calls && s'.owner == s.owner
            && (Inside(s.calls[c].stage) <==> Inside(s'.calls[c].stage))
            && (if Inside(s.calls[c].stage) then
                  match s'.calls[c].stage
                  case Admitting => false
                  case Installing => s'.co.holder.Adopted?
                  case _ => s'.co.holder == C.Reserved
                else s'.co.holder == s.co.holder)
  {
  }

  lemma OwnerInside(s: Sys, call: CallId)
    requires HolderOk(s) && call in s.calls && Inside(s.calls[call].stage)
    ensures s.owner == Some(call)
  {
  }

  lemma SimpleKeepsHolder(s: Sys, step: Step)
    requires HolderOk(s) && Caller(step).Some? && !step.Route? && !step.Reroute? && Next(s, step).Some?
    ensures HolderOk(Next(s, step).value)
  {
    hide HolderOk, Next, Inside, OnlyMoves;
    var s', call := Next(s, step).value, Caller(step).value;
    if step.TakeReservation? {
      TakingKeepsHolder(s, call);
    } else {
      CallerMoves(s, step);
      assert call in s.calls && call in s'.calls by { MovesKnown(s, s', call); }
      if Leaves(step) {
        LeaverMoves(s, step);
        EndedOutside();
        LeavingKeepsHolder(s, s', call);
      } else {
        StayerMoves(s, step);
        if Inside(s.calls[call].stage) {
          OwnerInside(s, call);
          InsideKeepsHolder(s, s', call);
        } else {
          OutsideKeepsHolder(s, s', call);
        }
      }
    }
  }

  lemma MovesKnown(s: Sys, s': Sys, call: CallId)
    requires OnlyMoves(s, s', call)
    ensures call in s.calls && call in s'.calls
  {
  }

  lemma EndedOutside()
    ensures !Inside(Ended)
  {
  }

  lemma AroundKeepsHolder(s: Sys, step: C.Step)
    requires HolderOk(s) && AroundNext(s, step).Some?
    ensures HolderOk(AroundNext(s, step).value)
  {
    var s' := AroundNext(s, step).value;
    assert s'.calls == s.calls && s'.owner == s.owner;
    if s.owner.Some? {
      OthersKeepHolder(s.co, step);
    }
  }

  lemma OthersKeepHolder(c: C.Co, step: C.Step)
    requires C.Next(c, step).Some? && !step.Unreserve? && !step.AdmitIdle? && !step.Publish? && !step.AdmissionFails? && !step.Start?
    requires c.holder == C.Reserved || c.holder == C.Admitting || c.holder.Adopted?
    ensures C.Next(c, step).value.holder == c.holder
  {
    hide C.NewItem;
  }

  lemma HolderKeeps(s: Sys, step: Step)
    requires HolderOk(s) && Next(s, step).Some?
    ensures HolderOk(Next(s, step).value)
  {
    hide HolderOk;
    if step.Around? {
      AroundKeepsHolder(s, step.step);
    } else if Caller(step).Some? {
      CallerKeepsHolder(s, step);
    } else {
      OthersKeepCallers(s, step);
    }
  }

  lemma OthersKeepCallers(s: Sys, step: Step)
    requires HolderOk(s) && !step.Around? && Caller(step).None? && Next(s, step).Some?
    ensures HolderOk(Next(s, step).value)
  {
    hide Next, C.Next;
    OthersMove(s, step);
    OwnerStays(s, step);
  }

  lemma OwnerStays(s: Sys, step: Step)
    requires !step.Around? && Caller(step).None? && Next(s, step).Some?
    ensures Next(s, step).value.owner == s.owner && Next(s, step).value.co.holder == s.co.holder
  {
    hide CanAdmit, Routed;
  }

  // ---- Deliveries -----------------------------------------------------------------------------------

  /** The caller delivers its completion with this step. */
  predicate Delivers(s: Sys, s': Sys, call: CallId, path: Path) {
    call in s.calls && s'.deliveries == s.deliveries + [Delivery(s.calls[call].id, path)]
  }

  /** The step delivers nothing, and takes no decision back. */
  predicate DeliversNothing(s: Sys, s': Sys) {
    s'.deliveries == s.deliveries
  }

  lemma RoutedDelivers(s: Sys, call: CallId, item: C.Item, held: bool)
    requires call in s.calls && Routed(s, call, item, held).Some?
    ensures var s' := Routed(s, call, item, held).value;
            && call in s'.calls
            && (if C.PriorityOf(s.co).DeliverSteering?
                then Delivers(s, s', call, AsSteering) && !Undecided(s'.calls[call].stage) && s'.carries == s.carries[item := s.calls[call].id]
                     && C.Next(s.co, C.Steer(item)) == Some(s'.co)
                else DeliversNothing(s, s') && s'.carries == s.carries)
            && s'.operations == s.operations
  {
    hide C.Next;
  }

  /** A step that delivers decides its caller's completion; one that does not, decides
      nothing for the first time. */
  lemma StepDelivers(s: Sys, step: Step)
    requires Next(s, step).Some?
    ensures var s' := Next(s, step).value;
            DeliversNothing(s, s') ||
            (Caller(step).Some? && var c := Caller(step).value;
              c in s.calls && c in s'.calls && Undecided(s.calls[c].stage) && !Undecided(s'.calls[c].stage) &&
              exists path :: Delivers(s, s', c, path))
    ensures var s' := Next(s, step).value;
            Caller(step).Some? ==> var c := Caller(step).value;
              c in s.calls && c in s'.calls && (Undecided(s'.calls[c].stage) ==> Undecided(s.calls[c].stage))
  {
    hide C.Next, Routed, CanAdmit, Claimable, WithClaim, WithoutMember, WithMember, BeginStop, EndStop, Decision, Converged;
    match step
    case Route(c, item) =>
      RoutedDelivers(s, c, item, false);
    case Reroute(c, item) =>
      RoutedDelivers(s, c, item, true);
    case AdmitCompletion(c) =>
      assert Delivers(s, Next(s, step).value, c, AsOperation);
    case SignalCloses(c) =>
      assert Delivers(s, Next(s, step).value, c, AsSignal);
    case _ =>
  }

  lemma OneMore(deliveries: seq<Delivery>, d: Delivery)
    requires OneDelivery(deliveries) && !DeliveredBy(deliveries, d.id)
    ensures OneDelivery(deliveries + [d])
    ensures forall id :: DeliveredBy(deliveries + [d], id) <==> DeliveredBy(deliveries, id) || id == d.id
  {
    var more := deliveries + [d];
    forall id ensures DeliveredBy(more, id) <==> DeliveredBy(deliveries, id) || id == d.id {
      if DeliveredBy(deliveries, id) {
        var i :| 0 <= i < |deliveries| && deliveries[i].id == id;
        assert more[i].id == id;
      }
      if id == d.id {
        assert more[|deliveries|].id == id;
      }
    }
  }

  /** The same callers or one moved or joined: the identities known to deliveries stay. */
  lemma IdentitiesStay(s: Sys, step: Step)
    requires Next(s, step).Some?
    ensures var calls' := Next(s, step).value.calls;
            forall c :: c in s.calls ==> c in calls' && calls'[c].id == s.calls[c].id
  {
    hide Next;
    if Caller(step).Some? {
      CallerMoves(s, step);
    } else {
      OthersMove(s, step);
    }
  }

  lemma DeliveryKeeps(s: Sys, s': Sys, call: CallId, path: Path)
    requires DeliveriesOk(s.calls, s.deliveries) && CallersOk(s.group, s.calls) && Delivers(s, s', call, path)
    requires Undecided(s.calls[call].stage) && OnlyMoves(s, s', call) && !Undecided(s'.calls[call].stage)
    ensures DeliveriesOk(s'.calls, s'.deliveries)
  {
    var d := Delivery(s.calls[call].id, path);
    OneMore(s.deliveries, d);
    forall i | 0 <= i < |s'.deliveries| ensures exists c :: c in s'.calls && s'.calls[c].id == s'.deliveries[i].id {
      if i < |s.deliveries| {
        var c :| c in s.calls && s.calls[c].id == s.deliveries[i].id;
        assert c in s'.calls && s'.calls[c].id == s'.deliveries[i].id;
      } else {
        assert s'.calls[call].id == d.id;
      }
    }
  }

  lemma SilenceKeeps(s: Sys, s': Sys)
    requires DeliveriesOk(s.calls, s.deliveries) && s'.deliveries == s.deliveries
    requires forall c :: c in s.calls ==> c in s'.calls && s'.calls[c].id == s.calls[c].id
    requires forall c :: c in s'.calls && Undecided(s'.calls[c].stage) ==>
               (c in s.calls && Undecided(s.calls[c].stage)) || !DeliveredBy(s.deliveries, s'.calls[c].id)
    ensures DeliveriesOk(s'.calls, s'.deliveries)
  {
    forall i | 0 <= i < |s'.deliveries| ensures exists c :: c in s'.calls && s'.calls[c].id == s'.deliveries[i].id {
      assert s'.deliveries[i] == s.deliveries[i];
      var c :| c in s.calls && s.calls[c].id == s.deliveries[i].id;
      assert c in s'.calls && s'.calls[c].id == s'.deliveries[i].id;
    }
  }

  /** A claimable member has not been delivered: whoever delivered it won its claim. */
  lemma ClaimableUndelivered(s: Sys, id: CompletionId)
    requires GroupOk(s.group) && CallersOk(s.group, s.calls) && DeliveriesOk(s.calls, s.deliveries) && Claimable(s.group, id)
    ensures !DeliveredBy(s.deliveries, id)
  {
  }

  lemma DeliveriesKeep(s: Sys, step: Step)
    requires GroupOk(s.group) && CallersOk(s.group, s.calls) && DeliveriesOk(s.calls, s.deliveries) && Next(s, step).Some?
    ensures DeliveriesOk(Next(s, step).value.calls, Next(s, step).value.deliveries)
  {
    hide Next, GroupOk, CallersOk, DeliveriesOk, DeliveredBy, Undecided;
    var s' := Next(s, step).value;
    StepDelivers(s, step);
    IdentitiesStay(s, step);
    if Caller(step).Some? {
      CallerMoves(s, step);
      if s'.deliveries != s.deliveries {
        var path :| Delivers(s, s', Caller(step).value, path);
        DeliveryKeeps(s, s', Caller(step).value, path);
      } else {
        SilenceKeeps(s, s');
      }
    } else {
      OthersMove(s, step);
      if Claims(s, step).Some? && Claimable(s.group, Claims(s, step).value.1) {
        ClaimableUndelivered(s, Claims(s, step).value.1);
      }
      SilenceKeeps(s, s');
    }
  }

  // ---- Steered and admitted completions -----------------------------------------------------------------

  /** A coordinator's histories only grow. */
  lemma HistoriesGrow(c: C.Co, step: C.Step)
    requires C.Next(c, step).Some?
    ensures var d := C.Next(c, step).value;
            && c.joinedSteering <= d.joinedSteering
            && (if step.Deliver? then c.holder.Completing? && c.holder.stage.Delivering? && d.delivered == c.delivered + [c.holder.stage.item]
                else d.delivered == c.delivered)
            && (step.Steer? ==> d.joinedSteering == c.joinedSteering + [step.item] && step.item !in c.joinedSteering)
  {
    hide C.DropBuffered, C.AllLeft;
    if c.holder.Completing? && c.holder.stage.Delivering? {
      C.DropKeepsRest(c, c.holder.stage.item, true);
      C.DropKeepsRest(c, c.holder.stage.item, false);
    }
  }

  lemma CoHistories(s: Sys, step: Step)
    requires Next(s, step).Some?
    ensures var s' := Next(s, step).value;
            && (forall x :: x in s.co.joinedSteering ==> x in s'.co.joinedSteering)
            && (forall x :: x in s.co.delivered ==> x in s'.co.delivered)
  {
    hide Next, C.Next;
    StepIsSection(s, step);
    if CoStep(s, step).Some? {
      HistoriesGrow(s.co, CoStep(s, step).value);
    }
  }

  /** What a step carries: a route may steer its completion. */
  lemma StepCarries(s: Sys, step: Step)
    requires Next(s, step).Some?
    ensures var s' := Next(s, step).value;
            s'.carries == s.carries ||
            (Caller(step).Some? && var c := Caller(step).value;
              && c in s.calls && Undecided(s.calls[c].stage) && Delivers(s, s', c, AsSteering)
              && exists item :: s'.carries == s.carries[item := s.calls[c].id] && item !in s.co.joinedSteering && item in s'.co.joinedSteering)
  {
    hide C.Next, Routed, CanAdmit, Delivers, Claimable, WithClaim, WithoutMember, WithMember, BeginStop, EndStop, Decision, Converged;
    match step
    case Route(c, item) =>
      RoutedDelivers(s, c, item, false);
      RouteHistories(s, item);
    case Reroute(c, item) =>
      RoutedDelivers(s, c, item, true);
      RouteHistories(s, item);
    case _ =>
  }

  lemma RouteHistories(s: Sys, item: C.Item)
    ensures var co := C.Next(s.co, C.Steer(item));
            co.Some? ==> item !in s.co.joinedSteering && item in co.value.joinedSteering
  {
  }

  lemma CarriesKeep(s: Sys, step: Step)
    requires DeliveriesOk(s.calls, s.deliveries) && CarriesOk(s.co, s.carries, s.deliveries) && Next(s, step).Some?
    ensures CarriesOk(Next(s, step).value.co, Next(s, step).value.carries, Next(s, step).value.deliveries)
  {
    hide Next, Undecided, OneDelivery, DeliveredBy, CarriesOk;
    var s' := Next(s, step).value;
    CoHistories(s, step);
    StepDelivers(s, step);
    StepCarries(s, step);
    assert forall d :: d in s.deliveries ==> d in s'.deliveries;
    if s'.carries == s.carries {
      SameCarries(s, s');
    } else {
      var c := Caller(step).value;
      var item :| s'.carries == s.carries[item := s.calls[c].id] && item !in s.co.joinedSteering && item in s'.co.joinedSteering;
      OneMoreCarried(s, s', item, s.calls[c].id);
    }
  }

  lemma SameCarries(s: Sys, s': Sys)
    requires CarriesOk(s.co, s.carries, s.deliveries) && s'.carries == s.carries
    requires forall x :: x in s.co.joinedSteering ==> x in s'.co.joinedSteering
    requires forall d :: d in s.deliveries ==> d in s'.deliveries
    ensures CarriesOk(s'.co, s'.carries, s'.deliveries)
  {
  }

  lemma OneMoreCarried(s: Sys, s': Sys, item: C.Item, id: CompletionId)
    requires CarriesOk(s.co, s.carries, s.deliveries) && s'.carries == s.carries[item := id]
    requires item !in s.co.joinedSteering && item in s'.co.joinedSteering
    requires forall x :: x in s.co.joinedSteering ==> x in s'.co.joinedSteering
    requires s'.deliveries == s.deliveries + [Delivery(id, AsSteering)] && !DeliveredBy(s.deliveries, id)
    ensures CarriesOk(s'.co, s'.carries, s'.deliveries)
  {
    hide DeliveredBy;
    assert s'.deliveries[|s.deliveries|] == Delivery(id, AsSteering);
    forall x | x in s.carries ensures s.carries[x] != id {
      DeliveredIn(s.deliveries, Delivery(s.carries[x], AsSteering));
    }
  }

  lemma DeliveredIn(deliveries: seq<Delivery>, d: Delivery)
    requires d in deliveries
    ensures DeliveredBy(deliveries, d.id)
  {
    var i :| 0 <= i < |deliveries| && deliveries[i] == d;
    assert deliveries[i].id == d.id;
  }

  /** What a step admits: an idle completion of its own, or the steered one a drain selected. */
  lemma StepAdmits(s: Sys, step: Step)
    requires Next(s, step).Some?
    ensures var s' := Next(s, step).value;
            || s'.operations == s.operations
            || (step.AdmitCompletion? && At(s, step.call, Admitting) && Delivers(s, s', step.call, AsOperation) &&
                s'.operations == s.operations + [s.calls[step.call].id])
            || (step.Around? && s.co.holder.Completing? && s.co.holder.stage.Delivering? && s.co.holder.stage.item in s.carries &&
                s'.operations == s.operations + [s.carries[s.co.holder.stage.item]] && s'.carries == s.carries &&
                s'.deliveries == s.deliveries && s'.co.delivered == s.co.delivered + [s.co.holder.stage.item])
  {
    hide C.Next, Routed, CanAdmit, Delivers;
    match step
    case Route(c, item) => RoutedDelivers(s, c, item, false);
    case Reroute(c, item) => RoutedDelivers(s, c, item, true);
    case AdmitCompletion(c) =>
      assert Delivers(s, Next(s, step).value, c, AsOperation) by {
        AdmissionDelivers(s, c);
      }
    case Around(cs) =>
      HistoriesGrow(s.co, cs);
    case _ =>
  }

  lemma AdmissionDelivers(s: Sys, c: CallId)
    requires Next(s, AdmitCompletion(c)).Some?
    ensures Delivers(s, Next(s, AdmitCompletion(c)).value, c, AsOperation)
  {
    hide C.Next;
  }

  /** A completion no caller has delivered is no Operation yet. */
  lemma UndeliveredUnadmitted(s: Sys, id: CompletionId)
    requires CarriesOk(s.co, s.carries, s.deliveries) && OperationsOk(s.co, s.carries, s.deliveries, s.operations)
    requires !DeliveredBy(s.deliveries, id)
    ensures id !in s.operations
  {
    if Delivery(id, AsOperation) in s.deliveries {
      DeliveredIn(s.deliveries, Delivery(id, AsOperation));
    }
  }

  /** A steered completion is no Operation before its own item is drained. */
  lemma SteeredUnadmitted(s: Sys, item: C.Item)
    requires OneDelivery(s.deliveries) && CarriesOk(s.co, s.carries, s.deliveries)
    requires OperationsOk(s.co, s.carries, s.deliveries, s.operations) && item in s.carries && item !in s.co.delivered
    ensures s.carries[item] !in s.operations
  {
    assert Delivery(s.carries[item], AsSteering) in s.deliveries;
  }

  lemma OperationsKeep(s: Sys, step: Step)
    requires C.SelectionOk(s.co) && DeliveriesOk(s.calls, s.deliveries) && CarriesOk(s.co, s.carries, s.deliveries)
    requires CallersOk(s.group, s.calls) && OperationsOk(s.co, s.carries, s.deliveries, s.operations) && Next(s, step).Some?
    ensures var s' := Next(s, step).value; OperationsOk(s'.co, s'.carries, s'.deliveries, s'.operations)
  {
    hide Next, CallersOk, OneDelivery;
    var s' := Next(s, step).value;
    CoHistories(s, step);
    StepDelivers(s, step);
    StepCarries(s, step);
    StepAdmits(s, step);
    AdmittedStay(s, step);
    if s'.operations != s.operations {
      var id := s'.operations[|s.operations|];
      if step.AdmitCompletion? {
        UndeliveredUnadmitted(s, id);
      } else {
        SteeredUnadmitted(s, s.co.holder.stage.item);
      }
      DistinctSnoc(s.operations, id);
    }
  }

  /** What made an admitted completion legitimate stays. */
  lemma AdmittedStay(s: Sys, step: Step)
    requires CarriesOk(s.co, s.carries, s.deliveries) && OperationsOk(s.co, s.carries, s.deliveries, s.operations) && Next(s, step).Some?
    ensures var s' := Next(s, step).value;
            forall id :: id in s.operations ==>
              Delivery(id, AsOperation) in s'.deliveries || exists x :: x in s'.carries && s'.carries[x] == id && x in s'.co.delivered
  {
    hide Next, OneDelivery, Undecided;
    var s' := Next(s, step).value;
    CoHistories(s, step);
    StepDelivers(s, step);
    StepCarries(s, step);
    forall id | id in s.operations && Delivery(id, AsOperation) !in s'.deliveries
      ensures exists x :: x in s'.carries && s'.carries[x] == id && x in s'.co.delivered
    {
      assert forall d :: d in s.deliveries ==> d in s'.deliveries;
      var x :| x in s.carries && s.carries[x] == id && x in s.co.delivered;
      assert x in s'.carries && s'.carries[x] == id;
    }
  }

  // ---- Obligations -------------------------------------------------------------------------------------------

  lemma TakeKeeps(s: Sys, t: TriggerId, intent: Option<Intent>)
    requires TakesOk(s.children, s.takes) && Checking(s, t)
    requires intent.Some? ==> s.children[s.triggers[t].child].pending.Some?
    ensures TakesOk(Take(s, t, intent).children, Take(s, t, intent).takes)
  {
    if intent.Some? {
      DistinctSnoc(s.takes, s.triggers[t].child);
    }
  }

  lemma TakesKeep(s: Sys, step: Step)
    requires TakesOk(s.children, s.takes) && Next(s, step).Some?
    ensures TakesOk(Next(s, step).value.children, Next(s, step).value.takes)
  {
    hide C.Next, Routed, CanAdmit, Distinct, Take;
    match step
    case Route(c, item) => RoutedSpares(s, c, item, false);
    case Reroute(c, item) => RoutedSpares(s, c, item, true);
    case TriggerUnavailable(t) =>
      TakeKeeps(s, t, if s.children[s.triggers[t].child].pending.Some? then Some(ToRelease) else None);
    case TriggerDecides(t) =>
      TakeKeeps(s, t, Decision(s.children[s.triggers[t].child], s.triggers[t].settled));
    case _ =>
  }

  lemma RoutedSpares(s: Sys, call: CallId, item: C.Item, held: bool)
    requires call in s.calls && Routed(s, call, item, held).Some?
    ensures Routed(s, call, item, held).value.children == s.children && Routed(s, call, item, held).value.takes == s.takes
  {
    hide C.Next;
  }

  // ---- Every interleaving -----------------------------------------------------------------------------------

  lemma StepKeeps(s: Sys, step: Step)
    requires Inv(s) && Next(s, step).Some?
    ensures Inv(Next(s, step).value)
  {
    hide Next, C.Inv, C.Next, GroupOk, CellOk, CallersOk, HolderOk, DeliveriesOk, CarriesOk, OperationsOk, TakesOk;
    StepIsSection(s, step);
    if CoStep(s, step).Some? {
      C.StepKeeps(s.co, CoStep(s, step).value);
    }
    GroupKeeps(s, step);
    CellKeeps(s, step);
    CallersKeep(s, step);
    HolderKeeps(s, step);
    DeliveriesKeep(s, step);
    CarriesKeep(s, step);
    Selected(s.co);
    OperationsKeep(s, step);
    TakesKeep(s, step);
  }

  lemma Selected(c: C.Co)
    requires C.Inv(c)
    ensures C.SelectionOk(c)
  {
  }

  lemma {:induction false} EveryInterleaving(child: bool, steps: seq<Step>)
    requires Run(Initial(child), steps).Some?
    ensures Inv(Run(Initial(child), steps).value)
    ensures Run(Initial(child), steps).value.group.child == child
  {
    hide Inv, Next;
    if |steps| == 0 {
      assert Inv(Initial(child)) by { InitialHolds(child); }
    } else {
      EveryInterleaving(child, steps[..|steps| - 1]);
      StepKeeps(Run(Initial(child), steps[..|steps| - 1]).value, steps[|steps| - 1]);
      ChildStays(Run(Initial(child), steps[..|steps| - 1]).value, steps[|steps| - 1]);
    }
  }

  lemma InitialHolds(child: bool)
    ensures Inv(Initial(child))
  {
    assert C.Run(C.Initial(), []) == Some(C.Initial());
    C.EveryInterleaving([]);
  }

  lemma ChildStays(s: Sys, step: Step)
    requires Next(s, step).Some?
    ensures Next(s, step).value.group.child == s.group.child
  {
    hide Next;
    StepIsGroup(s, step);
  }

  // ---- What it means for one completion ------------------------------------------------------------------------

  /** In every interleaving a completion takes at most one of the three delivery paths, once. */
  lemma OnePath(child: bool, steps: seq<Step>, i: nat, j: nat)
    requires Run(Initial(child), steps).Some?
    requires i < |Run(Initial(child), steps).value.deliveries| && j < |Run(Initial(child), steps).value.deliveries|
    requires Run(Initial(child), steps).value.deliveries[i].id == Run(Initial(child), steps).value.deliveries[j].id
    ensures i == j
  {
    hide Run, Next, C.Inv, GroupOk, CellOk, CallersOk, HolderOk, CarriesOk, OperationsOk;
    EveryInterleaving(child, steps);
  }

  /** In every interleaving a completion becomes at most one Operation, however many of its
      routes lead there, and never one beside its closed signal. */
  lemma AdmittedOnce(child: bool, steps: seq<Step>)
    requires Run(Initial(child), steps).Some?
    ensures var s := Run(Initial(child), steps).value;
            Distinct(s.operations) && forall id :: id in s.operations ==> Delivery(id, AsSignal) !in s.deliveries
  {
    hide Run, Next, C.Inv, GroupOk, CellOk, CallersOk, HolderOk;
    EveryInterleaving(child, steps);
    var s := Run(Initial(child), steps).value;
    forall id | id in s.operations ensures Delivery(id, AsSignal) !in s.deliveries {
      NotSignalled(s, id);
    }
  }

  lemma NotSignalled(s: Sys, id: CompletionId)
    requires OneDelivery(s.deliveries) && CarriesOk(s.co, s.carries, s.deliveries)
    requires OperationsOk(s.co, s.carries, s.deliveries, s.operations) && id in s.operations
    ensures Delivery(id, AsSignal) !in s.deliveries
  {
    var path := if Delivery(id, AsOperation) in s.deliveries then AsOperation else AsSteering;
    assert Delivery(id, path) in s.deliveries;
  }

  /** A member leaves its group only when the caller that won its claim has ended its
      attempt, and its `done` closes then. */
  lemma LeavesAfterItsAttempt(s: Sys, step: Step, id: CompletionId)
    requires Inv(s) && Next(s, step).Some? && id in s.group.members && id !in Next(s, step).value.group.members
    ensures step.Finish? && At(s, step.call, Ended) && s.calls[step.call].id == id
    ensures Next(s, step).value.group.finished == s.group.finished + [id]
  {
    hide C.Inv, C.Next, GroupOk, DeliveriesOk, CarriesOk, OperationsOk, HolderOk, Routed, CanAdmit;
    StepIsGroup(s, step);
  }

  /** Once its attempt has delivered or ended, a completion is delivered no more. */
  lemma NothingAfter(s: Sys, step: Step, call: CallId, d: Delivery)
    requires Inv(s) && Next(s, step).Some? && call in s.calls && !Undecided(s.calls[call].stage)
    requires d in Next(s, step).value.deliveries && d.id == s.calls[call].id
    ensures d in s.deliveries
  {
    hide C.Inv, Next, GroupOk, DeliveriesOk, CarriesOk, OperationsOk, HolderOk;
    StepDelivers(s, step);
  }

  /** A completion in delivery finds its Session open: only Harness loss or a child's
      closure sends it to the closed signal. */
  lemma ReachesOpenSession(s: Sys, call: CallId)
    requires Inv(s) && call in s.calls && s.calls[call].stage != Finished
    ensures s.co.open && !s.co.gone
    ensures C.PriorityOf(s.co).DeliverClosed? <==> !s.co.live || (s.group.child && s.group.state == Closed)
  {
    hide GroupOk, DeliveriesOk, CarriesOk, OperationsOk, HolderOk;
  }

  /** A steered completion still waiting has an Operation or a run ahead of it while the
      Harness lives; one that is not waiting has left its buffer. */
  lemma SteeredWaits(s: Sys, item: C.Item)
    requires Inv(s) && item in s.carries
    ensures item in s.co.steering || item in C.Items(s.co.leftSteering)
    ensures s.co.live && item in s.co.steering ==> C.Active(s.co)
  {
    hide GroupOk, DeliveriesOk, OperationsOk, HolderOk;
    assert item in C.Items(s.co.leftSteering) + s.co.steering;
  }

  /** A delivery by settlement finds the child terminal, retired and quiet. */
  lemma TakesWhenQuiet(s: Sys, t: TriggerId, id: CompletionId)
    requires Checking(s, t) && Next(s, TriggerDecides(t)).Some?
    requires Next(s, TriggerDecides(t)).value.triggers[t].stage == Took(id, ToDeliver)
    ensures var o := s.children[s.triggers[t].child]; !Busy(o) && o.pending == Some(id)
    ensures forall u :: Checking(Next(s, TriggerDecides(t)).value, u) && s.triggers[u].child == s.triggers[t].child ==>
              Decision(Next(s, TriggerDecides(t)).value.children[s.triggers[t].child], s.triggers[u].settled).None?
  {
  }

  /** In every interleaving each child's obligation is taken by at most one trigger. */
  lemma TakenOnce(child: bool, steps: seq<Step>)
    requires Run(Initial(child), steps).Some?
    ensures Distinct(Run(Initial(child), steps).value.takes)
  {
    hide Run, Next, C.Inv, GroupOk, CellOk, CallersOk, HolderOk, DeliveriesOk, CarriesOk, OperationsOk;
    EveryInterleaving(child, steps);
  }

  /** The next section of a caller, given an unused item and run. */
  function OwnStep(s: Sys, call: CallId, item: C.Item, run: C.RunId): Step
    requires call in s.calls
  {
    match s.calls[call].stage
    case Claimed => if s.calls[call].intent == ToDeliver then Route(call, item) else NoAttempt(call)
    case Waiting => if s.co.live then TakeReservation(call) else ReserveFails(call)
    case Holding => Reroute(call, item)
    case Admitting => AdmitCompletion(call)
    case Installing => InstallRun(call, run)
    case Signalling(_) => SignalCloses(call)
    case Releasing => Release(call)
    case Ended => Finish(call)
    case Finished => Finish(call)
  }

  /** No caller is ever stuck: only a reservation held elsewhere makes it wait. */
  lemma CallersProceed(s: Sys, call: CallId, item: C.Item, run: C.RunId)
    requires Inv(s) && call in s.calls && s.calls[call].stage != Finished
    requires C.NewItem(s.co, item) && run !in s.co.used
    requires s.calls[call].stage == Waiting && s.co.live ==> s.co.holder == C.Free
    ensures Next(s, OwnStep(s, call, item, run)).Some?
  {
    hide GroupOk, DeliveriesOk, CarriesOk, OperationsOk, C.BuffersOk, C.SelectionOk, C.DeliveredOk, C.NewItem, C.EnqueueSteering;
    ReachesOpenSession(s, call);
  }

  /** Every interleaving, seen from its coordinator alone, is one of the coordinator's. */
  lemma {:induction false} CoordinatorRun(child: bool, steps: seq<Step>) returns (sections: seq<C.Step>)
    requires Run(Initial(child), steps).Some?
    ensures C.Run(C.Initial(), sections) == Some(Run(Initial(child), steps).value.co)
  {
    hide Next, C.Next;
    sections := [];
    if |steps| > 0 {
      var before := Run(Initial(child), steps[..|steps| - 1]).value;
      sections := CoordinatorRun(child, steps[..|steps| - 1]);
      StepIsSection(before, steps[|steps| - 1]);
      var section := CoStep(before, steps[|steps| - 1]);
      if section.Some? {
        assert (sections + [section.value])[..|sections|] == sections;
        sections := sections + [section.value];
      }
    }
  }

  /** When a root Stop reopens its group, the group is empty: nothing joined while it was stopping. */
  lemma ReopensEmpty(child: bool, steps: seq<Step>)
    requires var s := Run(Initial(child), steps);
             s.Some? && s.value.group.state == Stopping && Next(s.value, StopEnds).Some?
    ensures var g := Next(Run(Initial(child), steps).value, StopEnds).value.group;
            g.state == Open && g.members == map[]
  {
    hide C.Inv, CellOk, CallersOk, HolderOk, DeliveriesOk, CarriesOk, OperationsOk;
    EveryInterleaving(child, steps);
    var g := Run(Initial(child), steps).value.group;
    assert forall id :: id in g.snapshot.value ==> id !in g.members;
    assert forall id :: id in g.members ==> id in g.members.Keys;
    assert g.members.Keys == {};
    assert g.members == map[];
  }

  /** A child's closure is permanent, and admits nothing more. */
  lemma {:induction false} ClosedForGood(s: Sys, steps: seq<Step>)
    requires s.group.child && s.group.state == Closed && Run(s, steps).Some?
    ensures var g := Run(s, steps).value.group; g.child && g.state == Closed && g.admitted == s.group.admitted
  {
    hide Next;
    if |steps| > 0 {
      ClosedForGood(s, steps[..|steps| - 1]);
      StepIsGroup(Run(s, steps[..|steps| - 1]).value, steps[|steps| - 1]);
    }
  }

  lemma AllLeft(members: map<CompletionId, Member>, kind: Kind)
    ensures OfKind(members, kind) - members.Keys == {}
  {
  }

  lemma CountOne(members: map<CompletionId, Member>, kind: Kind, left: set<CompletionId>, id: CompletionId)
    requires id in left && id in members
    ensures |OfKind(members, kind) - (left - {id})| == |OfKind(members, kind) - left| + if members[id].kind == kind then 1 else 0
  {
    var ids := OfKind(members, kind);
    assert ids - (left - {id}) == (ids - left) + if members[id].kind == kind then {id} else {};
  }

  // ---- The cell in place ------------------------------------------------------------------------------

  class Cell {
    const child: bool
    const coordinator: C.Cell
    var state: GroupState
    var members: map<CompletionId, Member>
    var snapshot: Option<set<CompletionId>>
    var pending: Option<CompletionId>
    ghost var admitted: set<CompletionId>
    ghost var claims: seq<CompletionId>
    ghost var finished: seq<CompletionId>

    ghost function View(): Group
      reads this
    {
      Group(child, state, members, snapshot, admitted, claims, finished)
    }

    /** This Session as its own settlement check sees it. */
    function AsOffspring(): Offspring
      reads this, coordinator
    {
      Offspring(coordinator.current, coordinator.run.Some?, |members|, pending)
    }

    constructor (child: bool, coordinator: C.Cell)
      ensures View() == Initial(child).group && this.coordinator == coordinator && pending.None?
    {
      this.child, this.coordinator, state, members, snapshot, pending := child, coordinator, Open, map[], None, None;
      admitted, claims, finished := {}, [], [];
    }

    /** The live members of one kind. */
    method CountKind(kind: Kind) returns (count: nat)
      ensures count == |OfKind(members, kind)|
    {
      hide OfKind;
      count := 0;
      var left := members.Keys;
      AllLeft(members, kind);
      while left != {}
        invariant left <= members.Keys && count == |OfKind(members, kind) - left|
        decreases |left|
      {
        var id :| id in left;
        CountOne(members, kind, left, id);
        left := left - {id};
        if members[id].kind == kind {
          count := count + 1;
        }
      }
      assert OfKind(members, kind) - left == OfKind(members, kind);
    }

    /** An archived Session, a lost Harness, a stopping or closed group and a kind at its cap
        refuse. */
    method AdmitMember(id: CompletionId, kind: Kind, cap: nat) returns (ok: bool)
      requires id !in admitted && coordinator as object != this as object
      modifies this
      ensures ok <==> old(coordinator.open) && old(coordinator.live) && old(state) == Open &&
                      (cap > 0 ==> |set x | x in old(members) && old(members)[x].kind == kind| < cap)
      ensures ok <==> CanAdmit(old(coordinator.State()), old(View()), kind, cap)
      ensures members == (if ok then old(members)[id := Member(kind, false)] else old(members))
      ensures state == old(state) && snapshot == old(snapshot) && pending == old(pending)
      ensures View() == if ok then WithMember(old(View()), id, kind) else old(View())
    {
      assert OfKind(members, kind) == set x | x in members && members[x].kind == kind;
      if !coordinator.open || !coordinator.live || state != Open {
        return false;
      }
      if cap > 0 {
        var count := CountKind(kind);
        if count >= cap {
          return false;
        }
      }
      members, admitted := members[id := Member(kind, false)], admitted + {id};
      return true;
    }

    /** The first claim wins; a missing or claimed member refuses. */
    method ClaimMember(id: CompletionId) returns (won: bool)
      modifies this
      ensures won <==> id in old(members) && !old(members)[id].claimed
      ensures won ==> members == old(members)[id := Member(old(members)[id].kind, true)] && claims == old(claims) + [id]
      ensures !won ==> members == old(members) && claims == old(claims)
      ensures state == old(state) && snapshot == old(snapshot) && pending == old(pending)
      ensures won <==> Claimable(old(View()), id)
      ensures View() == if won then WithClaim(old(View()), id) else old(View())
    {
      if id !in members || members[id].claimed {
        return false;
      }
      members, claims := members[id := members[id].(claimed := true)], claims + [id];
      return true;
    }

    /** Removes the member if still present and closes its `done`. */
    method FinishMember(id: CompletionId) returns (removed: bool)
      modifies this
      ensures removed <==> id in old(members)
      ensures removed ==> members == old(members) - {id} && finished == old(finished) + [id]
      ensures !removed ==> members == old(members) && finished == old(finished)
      ensures state == old(state) && snapshot == old(snapshot) && pending == old(pending)
      ensures View() == WithoutMember(old(View()), id)
    {
      if id !in members {
        return false;
      }
      members, finished := members - {id}, finished + [id];
      return true;
    }

    /** The settlement check's hold: it abandons, waits, or takes the obligation to deliver. */
    method SettleCheck(settled: Option<OpId>) returns (taken: Option<Intent>)
      modifies this`pending
      ensures taken == Some(ToRelease) <==> old(pending).Some? && settled.Some? && settled == coordinator.current
      ensures taken == Some(ToDeliver) <==>
                old(pending).Some? && coordinator.current.None? && coordinator.run.None? && members == map[]
      ensures taken == Decision(old(AsOffspring()), settled)
      ensures pending == if taken.Some? then None else old(pending)
    {
      if pending.None? {
        return None;
      }
      if settled.Some? && settled == coordinator.current {
        pending := None;
        return Some(ToRelease);
      }
      if coordinator.current.Some? || coordinator.run.Some? || |members| > 0 {
        return None;
      }
      pending := None;
      return Some(ToDeliver);
    }

    /** A Stop's opening hold: a child closes for good and drops its buffers, a root with
        live members stops them, one without does nothing. */
    method StopBegins() returns (stopping: bool)
      requires snapshot.None? && coordinator as object != this as object
      modifies this`state, this`snapshot, coordinator
      ensures stopping ==> state == (if child then Closed else Stopping) && snapshot == Some(old(members).Keys)
      ensures !stopping ==> state == old(state) && snapshot.None?
      ensures members == old(members)
      ensures child ==> coordinator.closed && coordinator.queued == [] && coordinator.steering == []
      ensures !child ==>
                && coordinator.closed == old(coordinator.closed)
                && coordinator.queued == old(coordinator.queued) && coordinator.steering == old(coordinator.steering)
      ensures View() == BeginStop(old(View()))
      ensures Some(coordinator.State()) == if child then C.Next(old(coordinator.State()), C.CloseChild) else Some(old(coordinator.State()))
      ensures stopping <==> child || old(members) != map[]
    {
      if child {
        coordinator.CloseChild();
        state := Closed;
      } else {
        if |members| == 0 {
          return false;
        }
        state := Stopping;
      }
      snapshot := Some(members.Keys);
      return true;
    }
  }
}
