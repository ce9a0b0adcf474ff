/** What a result tells the model about an execution that was cut short
    (harness/effect.go, recover.go), stated on the entries' own texts: a call whose tool may
    have run is never reported as not executed. */
module Notices {
  import opened Records
  import opened Validator
  import opened Transactions
  import opened Settling
  import opened Commits
  import opened View
  import opened Driver
  import opened Discipline
  import opened Shape
  import opened Fork
  import opened Invocations
  import opened Runs

  const EXECUTION_NOTICE := "Execution outcome unknown; the action may have occurred.\n\n"
  const HOOK_NOTICE := "Pre-tool hook outcome unknown; the hook may have taken effect. The tool was not executed.\n\n"
  const INTERRUPTION_TEXT := "Tool call interrupted."

  /** The transactions write these texts. */
  lemma NoticesWritten()
    ensures UNKNOWN_PREFIX == EXECUTION_NOTICE && UNKNOWN_HOOK_PREFIX == HOOK_NOTICE && INTERRUPTED_CONTENT == INTERRUPTION_TEXT
  {
  }

  /** No notice can be taken for the other, nor for none: they differ six characters before
      their end. */
  lemma NoticesDiffer(base: Text)
    ensures EXECUTION_NOTICE + base != HOOK_NOTICE + base && EXECUTION_NOTICE + base != base && HOOK_NOTICE + base != base
  {
    var e, h := EXECUTION_NOTICE, HOOK_NOTICE;
    assert |e| > 6 && |h| > 6;
    assert e[|e| - 6] == 'r' && h[|h| - 6] == 't';
    assert e != h;
    assert (e + base)[|e|..] == base && (h + base)[|h|..] == base;
    assert (e + base)[..|e|] == e && (h + base)[..|h|] == h;
  }

  // ---- The results of a terminal transition ------------------------------------------

  /** The tool of this call was about to run, or ran, when the Operation ended. */
  predicate UnderTool(op: Operation, c: CallId) {
    op.active.Some? && op.active.value.ToolEffect? && op.active.value.call == c
  }

  predicate UnderHook(op: Operation, c: CallId) {
    op.active.Some? && op.active.value.CallHookEffect? && op.active.value.call == c
  }

  /** Some recorded hook of this call ended with nothing known of its effect. */
  ghost predicate HookLeftUnknown(log: seq<Entry>, o: OpId, c: CallId) {
    exists i :: 0 <= i < |log| && log[i].owner == Some(o) && log[i].body.HookResult? &&
                log[i].body.binding == ForCall(c) && log[i].body.knowledge == Unknown
  }

  /** The calls without a result: the pending ones, then those of the preserved payload. */
  function CallsLeft(op: Operation, a: Option<Produced>): seq<Pending> {
    op.pending +
    if a.None? then []
    else seq(|a.value.calls|, k requires 0 <= k < |a.value.calls| =>
               Pending(a.value.id, a.value.calls[k].id, a.value.calls[k].result))
  }

  /** How many entries precede the interrupted results: the payload and the hook remnant. */
  function EntriesBefore(op: Operation, a: Option<Produced>): nat {
    (if a.Some? then 1 else 0)
    + if op.active.Some? && (op.active.value.CallHookEffect? || op.active.value.RequestHookEffect?) then 1 else 0
  }

  /** The interrupted result of one call. */
  ghost predicate Interrupts(log: seq<Entry>, o: OpId, op: Operation, p: Pending, e: Entry) {
    && e.id == p.result && e.owner == Some(o) && e.body.ToolResult?
    && e.body.answers == p.call && e.body.assistant == p.assistant && e.body.result == ResultInterrupted
    && e.body.knowledge == (if UnderTool(op, p.call) then Unknown else NotStarted)
    && e.body.accepted == UnderTool(op, p.call)
    && e.body.hooks == (if UnderTool(op, p.call) then op.active.value.hooks else [])
    && e.body.text == if UnderTool(op, p.call) then EXECUTION_NOTICE + INTERRUPTION_TEXT
                      else if UnderHook(op, p.call) || HookLeftUnknown(log, o, p.call) then HOOK_NOTICE + INTERRUPTION_TEXT
                      else INTERRUPTION_TEXT
  }

  lemma RemnantOnly(log: seq<Entry>, o: OpId, op: Operation, e: Ending, c: CallId)
    ensures UnderHook(op, c) || HookUnknown(EndingOpening(log, o, op, e), o, c) <==>
              UnderHook(op, c) || HookLeftUnknown(log, o, c)
  {
    var opening := EndingOpening(log, o, op, e);
    if HookLeftUnknown(log, o, c) {
      var i :| 0 <= i < |log| && log[i].owner == Some(o) && log[i].body.HookResult? &&
               log[i].body.binding == ForCall(c) && log[i].body.knowledge == Unknown;
      assert opening[i] == log[i] && IsHookResult(opening[i], o, ForCall(c));
    }
    if HookUnknown(opening, o, c) && !UnderHook(op, c) {
      var i :| 0 <= i < |opening| && IsHookResult(opening[i], o, ForCall(c)) && opening[i].body.knowledge == Unknown;
      assert i < |log| && opening[i] == log[i];
    }
  }

  /** Every call left gets one result, in order, right after the payload and the hook remnant.
      It says that the execution's outcome is unknown exactly when the call's own tool effect
      was live; otherwise that a hook's outcome is unknown exactly when the call's hook effect
      was live or a recorded hook of it ended unknown; otherwise that the call was interrupted. */
  lemma InterruptedResults(log: seq<Entry>, o: OpId, op: Operation, e: Ending, k: nat)
    requires k < |CallsLeft(op, e.assistant)|
    ensures |log| + EntriesBefore(op, e.assistant) + |CallsLeft(op, e.assistant)| < |EndingLog(log, o, op, e)|
    ensures Interrupts(log, o, op, CallsLeft(op, e.assistant)[k],
                       EndingLog(log, o, op, e)[|log| + EntriesBefore(op, e.assistant) + k])
  {
    hide EXECUTION_NOTICE, HOOK_NOTICE, INTERRUPTION_TEXT, UNKNOWN_PREFIX, UNKNOWN_HOOK_PREFIX, INTERRUPTED_CONTENT,
      HookUnknown, HookLeftUnknown, SettlementEntry, SignalEntry;
    var calls := op.pending + CallsPending(o, e.assistant);
    assert calls == CallsLeft(op, e.assistant);
    var opening := EndingOpening(log, o, op, e);
    assert |opening| == |log| + EntriesBefore(op, e.assistant);
    assert EndingLog(log, o, op, e)[|opening| + k] == InterruptedEntry(opening, o, op.active, calls[k]);
    RemnantOnly(log, o, op, e, calls[k].call);
    NoticesWritten();
  }

  /** Read the other way: what a result's text says of the effect it was cut short under. */
  lemma NoticeTells(log: seq<Entry>, o: OpId, op: Operation, p: Pending, e: Entry)
    requires Interrupts(log, o, op, p, e)
    ensures e.body.text == EXECUTION_NOTICE + INTERRUPTION_TEXT <==> UnderTool(op, p.call)
    ensures e.body.text == HOOK_NOTICE + INTERRUPTION_TEXT <==>
              !UnderTool(op, p.call) && (UnderHook(op, p.call) || HookLeftUnknown(log, o, p.call))
    ensures e.body.text == INTERRUPTION_TEXT <==>
              !UnderTool(op, p.call) && !UnderHook(op, p.call) && !HookLeftUnknown(log, o, p.call)
  {
    hide EXECUTION_NOTICE, HOOK_NOTICE, INTERRUPTION_TEXT, HookLeftUnknown;
    NoticesDiffer(INTERRUPTION_TEXT);
  }

  // ---- Every run -----------------------------------------------------------------------

  /** A successful hook was observed; a result of unknown execution carries the execution
      notice; and any other result of a call one of whose hooks ended unknown carries the
      hook notice. */
  ghost predicate EntryNoticed(log: seq<Entry>, e: Entry) {
    && (e.body.HookResult? && e.body.outcome == HookSucceeded ==> e.body.knowledge == Observed)
    && (e.body.ToolResult? && e.body.knowledge == Unknown ==> EXECUTION_NOTICE <= e.body.text)
    && (e.body.ToolResult? && e.body.knowledge != Unknown && LeftUnknown(log, e) ==> HOOK_NOTICE <= e.body.text)
  }

  /** A recorded hook of the call this result answers ended unknown. */
  ghost predicate LeftUnknown(log: seq<Entry>, e: Entry)
    requires e.body.ToolResult?
  {
    e.owner.Some? && HookLeftUnknown(log, e.owner.value, e.body.answers)
  }

  ghost predicate Noticed(log: seq<Entry>) {
    forall j :: 0 <= j < |log| ==> EntryNoticed(log[..j], log[j])
  }

  lemma NoticedGrows(log: seq<Entry>, e: Entry)
    requires Noticed(log) && EntryNoticed(log, e)
    ensures Noticed(log + [e])
  {
    hide EntryNoticed;
    var log' := log + [e];
    forall j | 0 <= j < |log'| ensures EntryNoticed(log'[..j], log'[j]) {
      assert j <= |log| && log'[..j] == log[..j];
    }
  }

  /** Entries that report no execution. */
  lemma {:induction false} NoticedThrough(log: seq<Entry>, es: seq<Entry>)
    requires Noticed(log) && forall i :: 0 <= i < |es| ==> !es[i].body.HookResult? && !es[i].body.ToolResult?
    ensures Noticed(log + es)
  {
    if |es| == 0 {
      assert log + es == log;
    } else {
      var n := |es| - 1;
      hide Noticed, EXECUTION_NOTICE, HOOK_NOTICE;
      NoticedThrough(log, es[..n]);
      NoticedGrows(log + es[..n], es[n]);
      assert log + es == (log + es[..n]) + [es[n]];
    }
  }

  /** A settlement's results carry the notices they owe. */
  lemma InterruptedNoticed(log: seq<Entry>, o: OpId, op: Operation, p: Pending, e: Entry, before: seq<Entry>)
    requires Interrupts(log, o, op, p, e)
    requires HookLeftUnknown(before, o, p.call) ==> UnderHook(op, p.call) || HookLeftUnknown(log, o, p.call)
    ensures EntryNoticed(before, e)
  {
    hide EXECUTION_NOTICE, HOOK_NOTICE, INTERRUPTION_TEXT, HookLeftUnknown;
  }

  /** Until the settlement entry, what a settlement adds to the hook results is its remnant. */
  lemma OnlyRemnantAdded(log: seq<Entry>, o: OpId, op: Operation, e: Ending, j: int, c: CallId)
    requires |log| <= j <= |EndingLog(log, o, op, e)| && HookLeftUnknown(EndingLog(log, o, op, e)[..j], o, c)
    ensures UnderHook(op, c) || HookLeftUnknown(log, o, c)
  {
    hide SettlementEntry, ResultText;
    var log' := EndingLog(log, o, op, e);
    var i :| 0 <= i < j && log'[i].owner == Some(o) && log'[i].body.HookResult? && log'[i].body.binding == ForCall(c) &&
             log'[i].body.knowledge == Unknown;
    if i < |log| {
      assert log'[i] == log[i];
    } else {
      HookResultOfEnding(log, o, op, e, i);
    }
  }

  lemma HookResultOfEnding(log: seq<Entry>, o: OpId, op: Operation, e: Ending, i: int)
    requires |log| <= i < |EndingLog(log, o, op, e)| && EndingLog(log, o, op, e)[i].body.HookResult?
    ensures op.active.Some? && IsHookEffect(op.active.value)
    ensures EndingLog(log, o, op, e)[i] == HookEntry(o, op.active.value, HookInterrupted, Unknown)
  {
    hide InterruptedEntry, SettlementEntry, HookEntry, SignalEntry, AssistantEntries;
    EndingLogSplits(log, o, op, e);
    var front, remnant := AssistantEntries(o, e.assistant), HookRemnant(o, op.active);
    var closing := ClosingPart(EndingOpening(log, o, op, e), o, op, e);
    var es := EndingEntries(log, o, op, e);
    assert es == front + remnant + closing + [SettlementEntry(o, op, e)];
    assert es[i - |log|] in front || es[i - |log|] in remnant || es[i - |log|] in closing || es[i - |log|] == SettlementEntry(o, op, e);
    NoHookResultsAside(log, o, op, e);
  }

  lemma NoHookResultsAside(log: seq<Entry>, o: OpId, op: Operation, e: Ending)
    ensures forall x :: x in AssistantEntries(o, e.assistant) ==> !x.body.HookResult?
    ensures forall x :: x in ClosingPart(EndingOpening(log, o, op, e), o, op, e) ==> !x.body.HookResult?
    ensures !SettlementEntry(o, op, e).body.HookResult?
  {
    hide ResultText, HookUnknown;
  }

  /** The results among a settlement's entries are the interrupted ones. */
  lemma ResultOfEnding(log: seq<Entry>, o: OpId, op: Operation, e: Ending, j: int) returns (k: nat)
    requires |log| <= j < |EndingLog(log, o, op, e)| && EndingLog(log, o, op, e)[j].body.ToolResult?
    ensures k < |CallsLeft(op, e.assistant)|
    ensures Interrupts(log, o, op, CallsLeft(op, e.assistant)[k], EndingLog(log, o, op, e)[j])
  {
    hide InterruptedEntry, SettlementEntry, HookRemnant, SignalPart, Interrupts;
    EndingLogSplits(log, o, op, e);
    var es := EndingEntries(log, o, op, e);
    var front := AssistantEntries(o, e.assistant) + HookRemnant(o, op.active);
    assert Remaining(op, o, e) == CallsLeft(op, e.assistant);
    NoResultsAside(o, op, e);
    var middle := InterruptedEntries(EndingOpening(log, o, op, e), o, op.active, Remaining(op, o, e));
    assert es == front + middle + (SignalPart(o, e) + [SettlementEntry(o, op, e)]);
    k := j - |log| - |front|;
    FrontSize(o, op, e);
    InterruptedResults(log, o, op, e, k);
  }

  lemma FrontSize(o: OpId, op: Operation, e: Ending)
    ensures |AssistantEntries(o, e.assistant) + HookRemnant(o, op.active)| == EntriesBefore(op, e.assistant)
  {
  }

  lemma EndingNoticed(log: seq<Entry>, o: OpId, op: Operation, e: Ending)
    requires Noticed(log)
    ensures Noticed(EndingLog(log, o, op, e))
  {
    hide EntryNoticed, Interrupts;
    var log' := EndingLog(log, o, op, e);
    EndingLogSplits(log, o, op, e);
    forall j | 0 <= j < |log'| ensures EntryNoticed(log'[..j], log'[j]) {
      if j < |log| {
        assert log'[..j] == log[..j];
      } else {
        EndingEntryNoticed(log, o, op, e, j);
      }
    }
  }

  lemma EndingEntryNoticed(log: seq<Entry>, o: OpId, op: Operation, e: Ending, j: int)
    requires |log| <= j < |EndingLog(log, o, op, e)|
    ensures EntryNoticed(EndingLog(log, o, op, e)[..j], EndingLog(log, o, op, e)[j])
  {
    hide EndingLog, EXECUTION_NOTICE, HOOK_NOTICE, HookLeftUnknown, Interrupts;
    var log' := EndingLog(log, o, op, e);
    if log'[j].body.HookResult? {
      HookResultOfEnding(log, o, op, e, j);
    } else if log'[j].body.ToolResult? {
      var k := ResultOfEnding(log, o, op, e, j);
      var p := CallsLeft(op, e.assistant)[k];
      if HookLeftUnknown(log'[..j], o, p.call) {
        OnlyRemnantAdded(log, o, op, e, j, p.call);
      }
      InterruptedNoticed(log, o, op, p, log'[j], log'[..j]);
    }
  }

  /** With its chain unbroken, no hook of a call ended unknown. */
  lemma IntactIsKnown(log: seq<Entry>, o: OpId, c: CallId)
    requires Noticed(log) && ChainIntact(log, o, ForCall(c))
    ensures !HookLeftUnknown(log, o, c)
  {
    forall i | 0 <= i < |log| && IsHookResult(log[i], o, ForCall(c)) ensures log[i].body.knowledge == Observed {
      assert EntryNoticed(log[..i], log[i]);
    }
  }

  lemma SettleCallNoticed(s: Sys, result: ResultStatus, base: Text, knowledge: Knowledge, accepted: bool)
    requires Noticed(s.g.log) && Inv(s) && SettleCallNext(s, result, base, knowledge, accepted).Some?
    ensures Noticed(SettleCallNext(s, result, base, knowledge, accepted).value.g.log)
  {
    hide Accepted, FrameOk, FactsFit, Noticed, EXECUTION_NOTICE, HOOK_NOTICE, UNKNOWN_PREFIX, UNKNOWN_HOOK_PREFIX;
    var s' := SettleCallNext(s, result, base, knowledge, accepted).value;
    var e := s'.g.log[|s.g.log|];
    assert s'.g.log == s.g.log + [e] && e.owner == Some(Current(s)) && e.body.answers == s.frame.call;
    assert e.body.text == ResultText(knowledge, HookUnknown(s.g.log, Current(s), s.frame.call), base);
    assert HookUnknown(s.g.log, Current(s), s.frame.call) <==> HookLeftUnknown(s.g.log, Current(s), s.frame.call);
    NoticesWritten();
    NoticedGrows(s.g.log, e);
  }

  lemma CommitToolNoticed(s: Sys, result: ResultStatus, base: Text, knowledge: Knowledge)
    requires Noticed(s.g.log) && Inv(s) && CommitToolNext(s, result, base, knowledge).Some?
    ensures Noticed(CommitToolNext(s, result, base, knowledge).value.g.log)
  {
    hide Accepted, FactsFit, Noticed, EXECUTION_NOTICE, HOOK_NOTICE, UNKNOWN_PREFIX, UNKNOWN_HOOK_PREFIX, HookLeftUnknown, ChainIntact;
    var s' := CommitToolNext(s, result, base, knowledge).value;
    var e := s'.g.log[|s.g.log|];
    assert s'.g.log == s.g.log + [e] && e.owner == Some(Current(s)) && e.body.answers == s.frame.call;
    assert ChainIntact(s.g.log, Current(s), ForCall(s.frame.call));
    IntactIsKnown(s.g.log, Current(s), s.frame.call);
    NoticesWritten();
    NoticedGrows(s.g.log, e);
  }

  lemma HookNoticed(s: Sys, step: Step)
    requires Noticed(s.g.log) && (step.CommitRequestHook? || step.CommitCallHook?) && Next(s, step).Some?
    ensures Noticed(Next(s, step).value.g.log)
  {
    hide Noticed, EXECUTION_NOTICE, HOOK_NOTICE, HookLeftUnknown;
    var s' := Next(s, step).value;
    var e := s'.g.log[|s.g.log|];
    assert s'.g.log == s.g.log + [e];
    NoticedGrows(s.g.log, e);
  }

  lemma ManualCheckpointNoticed(s: Sys, step: Step)
    requires Noticed(s.g.log) && step.ManualCheckpointStep? && Next(s, step).Some?
    ensures Noticed(Next(s, step).value.g.log)
  {
    hide Noticed, SafeCut, CoveredBoundary, RebuiltPaired, FreshEntry, RebuiltBoundary, EndingLog;
    var o := Current(s);
    var plan := Plan(step.id, step.messages, step.boundary, Evidence(s.frame.checkpoint, s.frame.tail.value, []));
    var carrier := ProcedureCarrier(s, step.producer);
    var mid := CommitCheckpoint(s.g, o, plan, carrier).value;
    NoticedThrough(s.g.log, [CheckpointEntry(o, plan, carrier)]);
    EndingNoticed(mid.log, o, mid.ops[o], SuccessEnding(None, step.settlement, step.signal));
  }

  /** Steps that append no report of an execution. */
  lemma QuietNoticed(s: Sys, step: Step)
    requires Noticed(s.g.log) && Next(s, step).Some?
    requires InMemory(step) || IsIntent(step) || step.Invoke? || step.CheckpointStep? || step.CommitModelStep? ||
             step.AdmitMessageStep? || step.AdmitCompactStep? || step.CompletionStep? || step.LifecycleStep?
    ensures Noticed(Next(s, step).value.g.log)
  {
    hide Noticed;
    var es := QuietEntries(s, step);
    NoticedThrough(s.g.log, es);
  }

  lemma QuietEntries(s: Sys, step: Step) returns (es: seq<Entry>)
    requires Next(s, step).Some?
    requires InMemory(step) || IsIntent(step) || step.Invoke? || step.CheckpointStep? || step.CommitModelStep? ||
             step.AdmitMessageStep? || step.AdmitCompactStep? || step.CompletionStep? || step.LifecycleStep?
    ensures Next(s, step).value.g.log == s.g.log + es
    ensures forall i :: 0 <= i < |es| ==> !es[i].body.HookResult? && !es[i].body.ToolResult?
  {
    hide FreshEntry, FreshRequest, ProposalValid, RebuiltPaired, FreshProduced, RoundEvidence, SignalContent, ChargeProduced, CallsPending;
    var s' := Next(s, step).value;
    if step.CommitModelStep? {
      es := ModelResultEntries(Current(s), step.produced, step.continuation);
      assert s'.g.log == s.g.log + es;
    } else {
      es := s'.g.log[|s.g.log|..];
      assert s'.g.log == s.g.log + es;
    }
  }

  /** In every step each result carries the notice it owes. */
  lemma NextNoticed(s: Sys, step: Step)
    requires Inv(s) && Noticed(s.g.log) && Next(s, step).Some?
    ensures Noticed(Next(s, step).value.g.log)
  {
    hide Inv, Noticed, EndingLog, FreshEntry;
    if IsFinish(step) {
      FinishSettles(s, step);
      EndingNoticed(s.g.log, Current(s), Op(s), EndingOf(s, step));
    } else if step.ManualCheckpointStep? {
      ManualCheckpointNoticed(s, step);
    } else if step.CommitRequestHook? || step.CommitCallHook? {
      HookNoticed(s, step);
    } else if step.SettleCallStep? {
      SettleCallNoticed(s, step.resolution, step.text, step.knowledge, step.accepted);
    } else if step.CommitToolStep? {
      CommitToolNoticed(s, step.resolution, step.text, step.knowledge);
    } else {
      QuietNoticed(s, step);
    }
  }

  lemma CopyNoticed(before: seq<Entry>, e: Entry, rho: EntryId -> EntryId, copied: seq<Entry>)
    requires EntryNoticed(before, e) && Eligible(e.body)
    ensures EntryNoticed(copied, CopyEntry(before, e, rho))
  {
    hide EXECUTION_NOTICE, HOOK_NOTICE, HookLeftUnknown;
  }

  /** A copied result keeps its notice. */
  lemma {:induction false} CopiedNoticed(log: seq<Entry>, rho: EntryId -> EntryId)
    requires Noticed(log)
    ensures Noticed(Copied(log, rho))
  {
    if |log| > 0 {
      hide Noticed, EntryNoticed, CopyEntry;
      var n := |log| - 1;
      PrefixNoticed(log, n);
      CopiedNoticed(log[..n], rho);
      if Eligible(log[n].body) {
        CopyNoticed(log[..n], log[n], rho, Copied(log[..n], rho));
        NoticedGrows(Copied(log[..n], rho), CopyEntry(log[..n], log[n], rho));
      }
    }
  }

  /** In every run of the store, every result whose execution is unknown says so, and every
      other result of a call whose hook ended unknown says that instead. */
  lemma {:induction false} EveryRunIsNoticed(moves: seq<Move>)
    requires Run(map[], moves).Some?
    ensures forall id :: id in Run(map[], moves).value ==> Noticed(Run(map[], moves).value[id].g.log)
  {
    hide Noticed, Apply, Good;
    if |moves| > 0 {
      EveryRunIsNoticed(moves[..|moves| - 1]);
      EveryRunIsGood(moves[..|moves| - 1]);
      MoveNoticed(Run(map[], moves[..|moves| - 1]).value, moves[|moves| - 1]);
    }
  }

  lemma MoveNoticed(store: Store, move: Move)
    requires forall id :: id in store ==> Good(store[id]) && Noticed(store[id].g.log)
    requires Apply(store, move).Some?
    ensures forall id :: id in Apply(store, move).value ==> Noticed(Apply(store, move).value[id].g.log)
  {
    hide Noticed, Next, Good, Injective, AdmitMessageNext, ForkedSession;
    match move
    case Create(id) => EmptyNoticed();
    case Drive(id, step) =>
      GoodIsInv(store[id]);
      NextNoticed(store[id], step);
    case ForkAt(source, id, n, rho, o, entry, text) =>
      ForkedNoticed(store[source].g, n, rho);
      AdmissionNoticed(ForkedSession(store[source].g, n, rho), o, entry, text);
  }

  lemma ForkedNoticed(g: Graph, n: nat, rho: EntryId -> EntryId)
    requires Noticed(g.log) && n <= |g.log|
    ensures Noticed(ForkedSession(g, n, rho).g.log)
  {
    hide Noticed, Copied;
    PrefixNoticed(g.log, n);
    CopiedNoticed(g.log[..n], rho);
  }

  lemma EmptyNoticed()
    ensures Noticed(EmptySession().g.log)
  {
  }

  lemma PrefixNoticed(log: seq<Entry>, n: nat)
    requires Noticed(log) && n <= |log|
    ensures Noticed(log[..n])
  {
    hide EntryNoticed;
    assert forall j :: 0 <= j < n ==> log[..n][..j] == log[..j];
  }

  lemma AdmissionNoticed(s: Sys, o: OpId, entry: EntryId, text: Text)
    requires Noticed(s.g.log) && AdmitMessageNext(s, o, entry, User, text).Some?
    ensures Noticed(AdmitMessageNext(s, o, entry, User, text).value.g.log)
  {
    hide FreshEntry;
    NoticedThrough(s.g.log, [Entry(entry, Some(o), Input(User, text))]);
  }

  // ---- Recovery ------------------------------------------------------------------------------

  /** No result recovery writes says "The tool was not executed" of a call whose tool was
      invoked: it says that the action may have occurred. */
  lemma RecoveredCallMayHaveRun(s: Sys, signal: EntryId, settlement: EntryId, j: int)
    requires Good(s) && RecoverNext(s, signal, settlement).Some?
    requires var log' := RecoverNext(s, signal, settlement).value.g.log;
             |s.g.log| <= j < |log'| && log'[j].body.ToolResult? && Executed(Current(s), log'[j].body.answers) in s.invoked
    ensures var result := RecoverNext(s, signal, settlement).value.g.log[j].body;
            result.knowledge == Unknown && result.text == EXECUTION_NOTICE + INTERRUPTION_TEXT
  {
    hide Good, Inv, EndingLog, FreshEntry, RecoveryEnding, EXECUTION_NOTICE, HOOK_NOTICE, INTERRUPTION_TEXT, HookLeftUnknown;
    GoodIsInv(s);
    var e := RecoveryEnding(signal, settlement);
    NoPayload(signal, settlement);
    var k := ResultOfEnding(s.g.log, Current(s), Op(s), e, j);
    var p := CallsLeft(Op(s), e.assistant)[k];
    assert p in Op(s).pending;
    PendingNotExecuted(s, p);
  }

  lemma NoPayload(signal: EntryId, settlement: EntryId)
    ensures RecoveryEnding(signal, settlement).assistant.None?
  {
  }
}
