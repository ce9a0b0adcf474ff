/** Model results, call chains, settlements, signals, crashes and recovery keep the
    driven Session's invariant. */
module CallSteps {
  import opened Records
  import opened Validator
  import opened Transactions
  import opened LogLemmas
  import opened Growth
  import opened Appends
  import opened Settling
  import opened Commits
  import opened Driver
  import opened Discipline
  import opened RoundSteps

  // ---- Model results ---------------------------------------------------------------

  lemma ProducedFitsRegister(s: Sys, a: Produced)
    requires Inv(s) && Driving(s) && ProducedBy(s, a)
    ensures ProducedFits(s.g.log, Current(s), Op(s), a)
  {
    hide LogFits, LogConsistent, OperationsAgree, SafeCut;
    OnlyRunning(s.g, Current(s));
    assert EffectAgrees(s.g.log, Current(s), Op(s), Op(s).active.value);
  }

  /** A produced call was never published before, so no hook ran for it. */
  lemma NewCallsHaveNoHooks(s: Sys, a: Produced, k: int)
    requires Inv(s) && Driving(s) && FreshCallIds(s.g, Current(s), a.calls) && 0 <= k < |a.calls|
    ensures NoHookResults(s.g.log, Current(s), ForCall(a.calls[k].id))
  {
    hide LogConsistent, OperationsAgree, SafeCut, Fits;
    UnpublishedHasNoHooks(s.g.session.fork, Admissions(s.g.ops), s.g.log, Current(s), a.calls[k].id);
  }

  /** After a conversation result every pending call is new, so its chain starts clean. */
  lemma ModelResultPending(s: Sys, a: Option<Produced>, log': seq<Entry>, signal: Option<EntryId>, p: Pending)
    requires Inv(s) && Driving(s) && (a.Some? ==> FreshCallIds(s.g, Current(s), a.value.calls))
    requires p in CallsPending(Current(s), a) && log' == s.g.log + ModelResultEntries(Current(s), a, signal)
    ensures NoHookResults(log', Current(s), ForCall(p.call))
  {
    hide Accepted, FrameOk, FactsFit;
    var k :| 0 <= k < |a.value.calls| && a.value.calls[k].id == p.call;
    NewCallsHaveNoHooks(s, a.value, k);
  }

  lemma CommitModelAccepted(s: Sys, a: Option<Produced>, signal: Option<EntryId>)
    requires Inv(s) && CommitModelNext(s, a, signal).Some?
    ensures Accepted(CommitModelNext(s, a, signal).value.g)
  {
    hide Accepted, FrameOk, FactsFit;
    if a.Some? {
      ProducedFitsRegister(s, a.value);
    }
    ModelResultAccepted(s.g, Current(s), a, signal);
  }

  lemma IdleAfterModel(s: Sys, a: Option<Produced>, signal: Option<EntryId>, log': seq<Entry>)
    requires Inv(s) && Driving(s) && s.frame.Rounding? && (a.Some? ==> FreshCallIds(s.g, Current(s), a.value.calls))
    requires log' == s.g.log + ModelResultEntries(Current(s), a, signal)
    ensures IdleOk(log', Current(s), ModelResultRegister(Op(s), Current(s), a))
    ensures FactsFit(log', Current(s), s.facts)
  {
    hide Accepted, RoundLogOk, NoHookResults, ProducerUsed;
    var op' := ModelResultRegister(Op(s), Current(s), a);
    forall p | p in op'.pending ensures NoHookResults(log', Current(s), ForCall(p.call)) {
      ModelResultPending(s, a, log', signal, p);
    }
    FactsGrow(s.g.log, ModelResultEntries(Current(s), a, signal), Current(s), s.facts, log');
  }

  lemma CommitModelKeeps(s: Sys, a: Option<Produced>, signal: Option<EntryId>)
    requires Inv(s) && CommitModelNext(s, a, signal).Some?
    ensures Inv(CommitModelNext(s, a, signal).value)
  {
    hide Accepted, RoundLogOk, NoHookResults, ProducerUsed, IdleOk, FactsFit, FreshEntry, ChargeProduced, CallsOf;
    var s' := CommitModelNext(s, a, signal).value;
    CommitModelAccepted(s, a, signal);
    assert s'.g.log == s.g.log + ModelResultEntries(Current(s), a, signal);
    IdleAfterModel(s, a, signal, s'.g.log);
    assert Op(s') == ModelResultRegister(Op(s), Current(s), a);
  }

  /** Entries without facts leave the unrecorded ones publishable. */
  lemma {:induction false} FactsGrow(log: seq<Entry>, es: seq<Entry>, o: OpId, facts: seq<Fact>, log': seq<Entry>)
    requires FactsFit(log, o, facts) && log' == log + es
    requires forall i :: 0 <= i < |es| ==> FactsOf(es[i].body) == []
    ensures FactsFit(log', o, facts)
  {
    if |es| == 0 {
      assert log' == log;
    } else {
      var n := |es| - 1;
      FactsGrow(log, es[..n], o, facts, log + es[..n]);
      assert log' == (log + es[..n]) + [es[n]];
      ProducersGrow(log + es[..n], es[n], o);
    }
  }

  lemma FinishModelKeeps(s: Sys, status: Status, detail: Text, a: Option<Produced>, usage: Option<Usage>, signal: EntryId,
                         settlement: EntryId)
    requires Inv(s) && FinishModelNext(s, status, detail, a, usage, signal, settlement).Some?
    ensures Inv(FinishModelNext(s, status, detail, a, usage, signal, settlement).value)
  {
    hide LogFits, LogConsistent, OperationsAgree, SafeCut;
    if a.Some? {
      ProducedFitsRegister(s, a.value);
    }
    SettleAccepted(s.g, Current(s),
                   Ending(status, detail, a, if usage.Some? then Some((Op(s).active.value.model, usage.value)) else None,
                          false, OuterCarrier(s), signal, settlement));
  }

  lemma FinishQuietKeeps(s: Sys, status: Status, detail: Text, signal: EntryId, settlement: EntryId)
    requires Inv(s) && FinishQuietNext(s, status, detail, signal, settlement).Some?
    ensures Inv(FinishQuietNext(s, status, detail, signal, settlement).value)
  {
    hide LogFits, LogConsistent, OperationsAgree, SafeCut;
    SettleAccepted(s.g, Current(s), Ending(status, detail, None, None, false, OuterCarrier(s), signal, settlement));
  }

  // ---- One call ----------------------------------------------------------------------

  lemma OpenChainKeeps(s: Sys, plan: seq<Planned>)
    requires Inv(s) && OpenChainNext(s, plan).Some?
    ensures Inv(OpenChainNext(s, plan).value)
  {
    hide LogFits, LogConsistent, OperationsAgree, SafeCut;
    var c := Op(s).pending[0].call;
    assert Op(s).pending[0] in Op(s).pending;
    NoHooks(s.g.log, Current(s), ForCall(c));
    assert plan[..0] == [];
    assert forall p :: p in Op(s).pending[1..] ==> p in Op(s).pending;
  }

  lemma PureCallHookKeeps(s: Sys)
    requires Inv(s) && PureCallHookNext(s).Some?
    ensures Inv(PureCallHookNext(s).value)
  {
    hide LogFits, LogConsistent, OperationsAgree, SafeCut;
    EffectfulStep(s.frame.plan, s.frame.done);
  }

  lemma BeginCallHookKeeps(s: Sys, result: EntryId)
    requires Inv(s) && BeginCallHookNext(s, result).Some?
    ensures Inv(BeginCallHookNext(s, result).value)
  {
    hide LogFits, LogConsistent, OperationsAgree, SafeCut;
    var s' := BeginCallHookNext(s, result).value;
    OnlyRunning(s.g, Current(s));
    NextIsNew(s.frame.plan, s.frame.done);
    BeginAccepted(s.g, Current(s), Op(s').active.value, Op(s').request);
  }

  lemma BeginToolKeeps(s: Sys)
    requires Inv(s) && BeginToolNext(s).Some?
    ensures Inv(BeginToolNext(s).value)
  {
    hide LogFits, LogConsistent, OperationsAgree, SafeCut;
    var s' := BeginToolNext(s).value;
    OnlyRunning(s.g, Current(s));
    PrefixReconciles(s.frame.plan, s.frame.done);
    BeginAccepted(s.g, Current(s), Op(s').active.value, Op(s').request);
  }

  lemma ChainAfterHook(log: seq<Entry>, o: OpId, f: Frame, effect: Effect, outcome: HookStatus, knowledge: Knowledge)
    requires f.Chaining? && f.broken.None? && ChainLogOk(log, o, f) && NextHook(f, true)
    requires effect.CallHookEffect? && effect.call == f.call && effect.hook == f.plan[f.done].id
    ensures ChainLogOk(log + [HookEntry(o, effect, outcome, knowledge)], o,
                       if outcome == HookSucceeded then Advance(f) else f.(broken := Some(outcome)))
  {
    var e := HookEntry(o, effect, outcome, knowledge);
    var log' := log + [e];
    EffectfulStep(f.plan, f.done);
    SnocHooks(log, e, o, ForCall(f.call));
    SnocSucceeded(log, e, o, f.call);
    ChainGrows(log, e, o, ForCall(f.call));
    assert forall i :: 0 <= i < |log'| && IsHookResult(log'[i], o, ForCall(f.call)) && i < |log| ==> log'[i] == log[i];
  }

  lemma CommitCallHookKeeps(s: Sys, outcome: HookStatus, knowledge: Knowledge)
    requires Inv(s) && CommitCallHookNext(s, outcome, knowledge).Some?
    ensures Inv(CommitCallHookNext(s, outcome, knowledge).value)
  {
    hide LogFits, OperationsAgree, SafeCut;
    var o, effect := Current(s), Op(s).active.value;
    var e := HookEntry(o, effect, outcome, knowledge);
    HookAccepted(s.g, o, outcome, knowledge);
    OnlyRunning(s.g, o);
    ChainAfterHook(s.g.log, o, s.frame, effect, outcome, knowledge);
    ProducersGrow(s.g.log, e, o);
    PendingDistinct(s.g.log, o);
    forall p | p in Op(s).pending[1..] ensures NoHookResults(s.g.log + [e], o, ForCall(p.call)) {
      var i :| 1 <= i < |Op(s).pending| && Op(s).pending[i] == p;
      assert p.call != s.frame.call;
      NoHookResultsAppend(s.g.log, e, o, ForCall(p.call));
    }
  }

  lemma NoHookResultsAppend(log: seq<Entry>, e: Entry, o: OpId, b: Binding)
    requires NoHookResults(log, o, b) && !IsHookResult(e, o, b)
    ensures NoHookResults(log + [e], o, b)
  {
  }

  /** The outcome a chain allows fits the hooks that ran for its call. */
  lemma ChainOutcomeFits(log: seq<Entry>, o: OpId, f: Frame, out: Outcome)
    requires f.Chaining? && ChainLogOk(log, o, f) && OutcomeFollows(f.broken, out.result)
    requires out.accepted ==> out.hooks == Contributed(f)
    ensures OutcomeFits(log, o, f.call, out)
  {
    PrefixReconciles(f.plan, f.done);
  }

  lemma AfterResult(s: Sys, out: Outcome, s': Sys)
    requires Inv(s) && Driving(s) && s.frame.Chaining?
    requires OutcomeFits(s.g.log, Current(s), s.frame.call, out)
    requires s'.frame == Idle && s'.facts == s.facts
    requires s'.g == Graph(s.g.session, s.g.ops[Current(s) := AfterToolResult(Op(s), 0)],
                           s.g.log + [ToolResultEntry(Current(s), Op(s).pending[0], out)])
    ensures Inv(s')
  {
    hide LogFits, LogConsistent, OperationsAgree, SafeCut, OutcomeFits, ChainLogOk;
    var o := Current(s);
    OnlyRunning(s.g, o);
    ResultAccepted(s.g, o, 0, out);
    ProducersGrow(s.g.log, ToolResultEntry(o, Op(s).pending[0], out), o);
    IdleAfterResult(s.g.log, o, Op(s), s.frame, out);
  }

  lemma IdleAfterResult(log: seq<Entry>, o: OpId, op: Operation, f: Frame, out: Outcome)
    requires f.Chaining? && ChainOk(log, o, op, f)
    ensures IdleOk(log + [ToolResultEntry(o, op.pending[0], out)], o, AfterToolResult(op, 0))
  {
    hide ChainLogOk;
    var e := ToolResultEntry(o, op.pending[0], out);
    assert WithoutIndex(op.pending, 0) == op.pending[1..];
    forall p | p in op.pending[1..] ensures NoHookResults(log + [e], o, ForCall(p.call)) {
      NoHookResultsAppend(log, e, o, ForCall(p.call));
    }
  }

  lemma SettleCallKeeps(s: Sys, result: ResultStatus, text: Text, knowledge: Knowledge, accepted: bool)
    requires Inv(s) && SettleCallNext(s, result, text, knowledge, accepted).Some?
    ensures Inv(SettleCallNext(s, result, text, knowledge, accepted).value)
  {
    hide LogFits, LogConsistent, OperationsAgree, SafeCut, OutcomeFits, ResultText, HookUnknown;
    var out := Outcome(result, ResultText(knowledge, HookUnknown(s.g.log, Current(s), s.frame.call), text), knowledge, accepted,
                       if accepted then Contributed(s.frame) else []);
    ChainOutcomeFits(s.g.log, Current(s), s.frame, out);
    AfterResult(s, out, SettleCallNext(s, result, text, knowledge, accepted).value);
  }

  lemma CommitToolKeeps(s: Sys, result: ResultStatus, text: Text, knowledge: Knowledge)
    requires Inv(s) && CommitToolNext(s, result, text, knowledge).Some?
    ensures Inv(CommitToolNext(s, result, text, knowledge).value)
  {
    hide LogFits, LogConsistent, OperationsAgree, SafeCut, OutcomeFits, ResultText;
    var out := Outcome(result, ResultText(knowledge, false, text), knowledge, true, Op(s).active.value.hooks);
    ChainOutcomeFits(s.g.log, Current(s), s.frame, out);
    AfterResult(s, out, CommitToolNext(s, result, text, knowledge).value);
  }

  // ---- Everything else ------------------------------------------------------------------

  lemma InvokeKeeps(s: Sys)
    requires Inv(s) && InvokeNext(s).Some?
    ensures Inv(InvokeNext(s).value)
  {
    hide Accepted;
  }

  lemma LifecycleKeeps(s: Sys, open: bool)
    requires Inv(s) && LifecycleNext(s, open).Some?
    ensures Inv(LifecycleNext(s, open).value)
  {
    LifecycleAccepted(s.g, open);
  }

  lemma CrashKeeps(s: Sys)
    requires Inv(s) && CrashNext(s).Some?
    ensures Inv(CrashNext(s).value)
  {
    hide LogFits, LogConsistent, OperationsAgree, SafeCut;
    if Driving(s) && Op(s).active.Some? {
      ActiveHookUnnamed(s);
    }
  }

  lemma RecoverKeeps(s: Sys, signal: EntryId, settlement: EntryId)
    requires Inv(s) && RecoverNext(s, signal, settlement).Some?
    ensures Inv(RecoverNext(s, signal, settlement).value)
  {
    hide LogFits, LogConsistent, OperationsAgree, SafeCut;
    SettleAccepted(s.g, Current(s), RecoveryEnding(signal, settlement));
  }

  lemma RestartKeeps(s: Sys)
    requires Inv(s) && RestartNext(s).Some?
    ensures Inv(RestartNext(s).value)
  {
    hide Accepted;
  }

  lemma RoundGrowsForeign(session: Session, log: seq<Entry>, e: Entry, o: OpId, f: Frame)
    requires f.Rounding? && RoundLogOk(session, log, o, f) && e.owner.None?
    ensures RoundLogOk(session, log + [e], o, f)
  {
    var log' := log + [e];
    SnocForeign(log, e, o);
    RefsGrow(log, e, f.checkpoint, f.boundary);
    AnsweredGrows(log, e, o, f.request);
    ChainGrows(log, e, o, ForRequest(f.request));
    forall i, h | 0 <= i < |log'| && Names(log'[i], o, f.request, h) ensures h in Contributed(f) {
      assert log'[i] == log[i];
    }
  }

  lemma ChainGrowsForeign(log: seq<Entry>, e: Entry, o: OpId, f: Frame)
    requires f.Chaining? && ChainLogOk(log, o, f) && e.owner.None?
    ensures ChainLogOk(log + [e], o, f)
  {
    var log' := log + [e];
    SnocForeign(log, e, o);
    ChainGrows(log, e, o, ForCall(f.call));
    assert forall i :: 0 <= i < |log'| && Owned(log'[i], o) ==> log'[i] == log[i];
  }

  /** An ownerless signal moves no view the driver relies on. */
  lemma FrameGrowsForeign(session: Session, log: seq<Entry>, e: Entry, o: OpId, op: Operation, f: Frame, facts: seq<Fact>)
    requires FrameOk(session, log, o, op, f, facts) && e.owner.None? && e.body.Signal?
    ensures FrameOk(session, log + [e], o, op, f, facts)
  {
    hide FactsFit, SafeCut, RefsResolve, RoundLogOk, ChainLogOk;
    var log' := log + [e];
    assert forall i :: 0 <= i < |log'| && Owned(log'[i], o) ==> i < |log| && log'[i] == log[i];
    if f.Rounding? {
      RoundGrowsForeign(session, log, e, o, f);
    } else if f.Chaining? {
      ChainGrowsForeign(log, e, o, f);
    } else if f.Manual? && f.tail.Some? {
      RefsGrow(log, e, f.checkpoint, f.tail.value);
    }
  }

  lemma CompletionKeeps(s: Sys, entry: EntryId, text: Text)
    requires Inv(s) && CompletionNext(s, entry, text).Some?
    ensures Inv(CompletionNext(s, entry, text).value)
  {
    hide LogFits, LogConsistent, OperationsAgree, SafeCut;
    var e := Entry(entry, None, Signal(CompletionSignal, None, text));
    CompletionAccepted(s.g, entry, text);
    if s.g.session.current.Some? {
      FrameGrowsForeign(s.g.session, s.g.log, e, Current(s), Op(s), s.frame, s.facts);
      ProducersGrow(s.g.log, e, Current(s));
    }
  }
}
