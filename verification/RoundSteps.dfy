/** Admission and the request boundary keep the driven Session's invariant. */
module RoundSteps {
  import opened Records
  import opened Validator
  import opened Transactions
  import opened LogLemmas
  import opened Growth
  import opened Appends
  import opened Settling
  import opened Commits
  import opened Driver
  import opened Discipline

  lemma AdmitMessageKeeps(s: Sys, o: OpId, entry: EntryId, origin: Origin, text: Text)
    requires Inv(s) && AdmitMessageNext(s, o, entry, origin, text).Some?
    ensures Inv(AdmitMessageNext(s, o, entry, origin, text).value)
  {
    AdmitMessageAccepted(s.g, o, entry, origin, text);
  }

  /** A new compact Operation owns nothing. */
  lemma AdmitCompactKeeps(s: Sys, o: OpId)
    requires Inv(s) && AdmitCompactNext(s, o).Some?
    ensures Inv(AdmitCompactNext(s, o).value)
  {
    AdmitCompactAccepted(s.g, o);
    OwnersAdmitted(s.g.session.fork, Admissions(s.g.ops), s.g.log, o);
  }

  lemma OpenRoundKeeps(s: Sys, r: RequestId, plan: seq<Planned>)
    requires Inv(s) && OpenRoundNext(s, r, plan).Some?
    ensures Inv(OpenRoundNext(s, r, plan).value)
  {
    hide LogFits, LogConsistent, OperationsAgree, EffectAgrees, SafeCut;
    var s' := OpenRoundNext(s, r, plan).value;
    ProjectedResolves(s.g);
    UnmentionedIsOpen(s.g.log, Current(s), r);
    assert plan[..0] == [];
  }

  /** Evidence that named only contributions keeps doing so as contributions grow. */
  lemma NamedWithinLater(log: seq<Entry>, o: OpId, f: Frame, f': Frame)
    requires f.Rounding? && f.done <= |f.plan| && NamedWithin(log, o, f)
    requires f'.Rounding? && f'.plan == f.plan && f.done <= f'.done <= |f'.plan| && f'.request == f.request
    ensures NamedWithin(log, o, f')
  {
    forall i, h | 0 <= i < |log| && Names(log[i], o, f'.request, h) ensures h in Contributed(f') {
      assert h in Contributed(f);
      var k :| 0 <= k < f.done && Contributed(f)[k] == h;
      assert Contributed(f')[k] == h;
    }
  }

  lemma PureRequestHookKeeps(s: Sys)
    requires Inv(s) && PureRequestHookNext(s).Some?
    ensures Inv(PureRequestHookNext(s).value)
  {
    hide LogFits, LogConsistent, OperationsAgree, SessionAgrees, UsageAgrees, SafeCut;
    EffectfulStep(s.frame.plan, s.frame.done);
    NamedWithinLater(s.g.log, Current(s), s.frame, Advance(s.frame));
  }

  lemma StopRoundKeeps(s: Sys)
    requires Inv(s) && StopRoundNext(s).Some?
    ensures Inv(StopRoundNext(s).value)
  {
    hide LogFits, LogConsistent, OperationsAgree, SessionAgrees, UsageAgrees, SafeCut;
    NamedWithinLater(s.g.log, Current(s), s.frame, s.frame.(stopped := true));
  }

  /** The evidence of a round holds in the log as it stands. */
  lemma RoundEvidenceHolds(s: Sys)
    requires Inv(s) && Driving(s) && s.frame.Rounding? && !s.frame.stopped
    ensures ActiveEvidence(s.g.log, Current(s), s.frame.request, RoundEvidence(s.frame))
    ensures RequestOpen(s.g.log, Current(s), s.frame.request)
  {
    PrefixReconciles(s.frame.plan, s.frame.done);
  }

  /** The published request of a round agrees with the register once it exists. */
  lemma RoundRequestAgrees(s: Sys)
    requires Inv(s) && Driving(s) && s.frame.Rounding?
    ensures var request := RunningRequest(s.frame.request, s.frame.checkpoint, s.frame.boundary, []);
            Op(s).request.None? ==> RequestAgrees(s.g.session, s.g.log, Current(s), request)
    ensures Op(s).request.Some? ==>
              && RequestAgrees(s.g.session, s.g.log, Current(s), Op(s).request.value)
              && Op(s).request.value.checkpoint == s.frame.checkpoint
  {
    OnlyRunning(s.g, Current(s));
    if Op(s).request.None? {
      NoHooks(s.g.log, Current(s), ForRequest(s.frame.request));
    }
  }

  lemma BeginRequestHookKeeps(s: Sys, result: EntryId)
    requires Inv(s) && BeginRequestHookNext(s, result).Some?
    ensures Inv(BeginRequestHookNext(s, result).value)
  {
    hide LogFits, LogConsistent, OperationsAgree, SafeCut;
    var s' := BeginRequestHookNext(s, result).value;
    RoundEvidenceHolds(s);
    RoundRequestAgrees(s);
    NextIsNew(s.frame.plan, s.frame.done);
    BeginAccepted(s.g, Current(s), Op(s').active.value, Op(s').request);
  }

  lemma BeginModelKeeps(s: Sys, result: EntryId, m: ModelRef)
    requires Inv(s) && BeginModelNext(s, result, m).Some?
    ensures Inv(BeginModelNext(s, result, m).value)
  {
    hide LogFits, LogConsistent, OperationsAgree, SafeCut;
    var s' := BeginModelNext(s, result, m).value;
    RoundEvidenceHolds(s);
    RoundRequestAgrees(s);
    assert Op(s').request.value == AdvanceRequest(Op(s).request, s.frame.request, RoundEvidence(s.frame));
    BeginAccepted(s.g, Current(s), Op(s').active.value, Op(s').request);
  }

  /** The hook an active request hook runs is named by nothing recorded. */
  lemma ActiveHookUnnamed(s: Sys)
    requires Inv(s) && Driving(s) && Op(s).active.Some?
    ensures Unnamed(s.g.log, Current(s), Op(s).active.value)
  {
    hide Accepted, FactsFit, ChainLogOk, CompactQuiet;
    if Op(s).active.value.RequestHookEffect? && s.frame.Rounding? {
      NextIsNew(s.frame.plan, s.frame.done);
    }
  }

  lemma RoundAfterHook(session: Session, log: seq<Entry>, o: OpId, f: Frame, effect: Effect, outcome: HookStatus, knowledge: Knowledge)
    requires f.Rounding? && !f.stopped && RoundLogOk(session, log, o, f) && NextHook(f, true)
    requires effect.RequestHookEffect? && effect.request == f.request && effect.hook == f.plan[f.done].id
    requires effect.evidence == RoundEvidence(f)
    ensures RoundLogOk(session, log + [HookEntry(o, effect, outcome, knowledge)], o,
                       if outcome == HookSucceeded then Advance(f) else f.(stopped := true))
  {
    var e := HookEntry(o, effect, outcome, knowledge);
    var log' := log + [e];
    EffectfulStep(f.plan, f.done);
    SnocHooks(log, e, o, ForRequest(f.request));
    ChainGrows(log, e, o, ForRequest(f.request));
    AnsweredGrows(log, e, o, f.request);
    RefsGrow(log, e, f.checkpoint, f.boundary);
    assert forall i, h :: 0 <= i < |log'| && Names(log'[i], o, f.request, h) ==> h in Contributed(f) by {
      forall i, h | 0 <= i < |log'| && Names(log'[i], o, f.request, h) ensures h in Contributed(f) {
        if i < |log| {
          assert log'[i] == log[i];
        }
      }
    }
  }

  lemma CommitRequestHookKeeps(s: Sys, outcome: HookStatus, knowledge: Knowledge)
    requires Inv(s) && CommitRequestHookNext(s, outcome, knowledge).Some?
    ensures Inv(CommitRequestHookNext(s, outcome, knowledge).value)
  {
    hide LogFits, LogConsistent, OperationsAgree, SafeCut;
    var o, effect := Current(s), Op(s).active.value;
    ActiveHookUnnamed(s);
    HookAccepted(s.g, o, outcome, knowledge);
    OnlyRunning(s.g, o);
    RoundAfterHook(s.g.session, s.g.log, o, s.frame, effect, outcome, knowledge);
    ProducersGrow(s.g.log, HookEntry(o, effect, outcome, knowledge), o);
  }
}
