/** Restart recovery (harness/recover.go): the terminal interruption of every running
    Operation of a Session the validator accepts, reachable or not. */
module Recovery {
  import opened Records
  import opened Validator
  import opened Transactions
  import opened LogLemmas
  import opened Growth
  import opened Appends
  import opened Settling
  import opened Commits
  import opened Driver
  import opened RoundSteps
  import opened History
  import opened Exchanges
  import opened Invocations
  import opened Runs

  /** What recovery makes of a Session: at most one Operation runs, and it is settled. */
  function Recovered(g: Graph, signal: EntryId, settlement: EntryId): Graph {
    if g.session.current.Some? && IsRunning(g, g.session.current.value)
    then Settle(g, g.session.current.value, RecoveryEnding(signal, settlement))
    else g
  }

  /** Nothing recorded names the hook whose execution was cut short. */
  ghost predicate Recoverable(g: Graph) {
    g.session.current.Some? && IsRunning(g, g.session.current.value) && g.ops[g.session.current.value].active.Some? ==>
      Unnamed(g.log, g.session.current.value, g.ops[g.session.current.value].active.value)
  }

  ghost predicate FreshPair(g: Graph, signal: EntryId, settlement: EntryId) {
    FreshEntry(g, signal) && FreshEntry(g, settlement) && signal != settlement
  }

  lemma RecoverableIsAccepted(g: Graph, signal: EntryId, settlement: EntryId)
    requires Accepted(g) && FreshPair(g, signal, settlement) && Recoverable(g)
    ensures Accepted(Recovered(g, signal, settlement))
  {
    hide LogFits, LogConsistent, OperationsAgree;
    if g.session.current.Some? && IsRunning(g, g.session.current.value) {
      SettleAccepted(g, g.session.current.value, RecoveryEnding(signal, settlement));
    }
  }

  /** An interrupted hook that earlier evidence already names cannot be recorded after it. */
  lemma NamedIsRejected(g: Graph, signal: EntryId, settlement: EntryId)
    requires Accepted(g) && !Recoverable(g)
    ensures !Accepted(Recovered(g, signal, settlement))
  {
    hide LogConsistent, OperationsAgree, UsageAgrees, EvidenceFits;
    var o := g.session.current.value;
    var op := g.ops[o];
    var g' := Recovered(g, signal, settlement);
    var x := HookEntry(o, op.active.value, HookInterrupted, Unknown);
    assert g'.log[|g.log|] == x && g'.log[..|g.log|] == g.log;
    assert !HookResultFits(g.log, x, o);
    assert !Fits(g'.session.fork, Admissions(g'.ops), g'.log[..|g.log|], g'.log[|g.log|]);
  }

  /** Recovery keeps an accepted Session accepted exactly when no earlier evidence names
      the interrupted request hook. */
  lemma RecoveryKeepsAccepted(g: Graph, signal: EntryId, settlement: EntryId)
    requires Accepted(g) && FreshPair(g, signal, settlement)
    ensures Accepted(Recovered(g, signal, settlement)) <==> Recoverable(g)
  {
    hide Accepted, Recoverable, Recovered;
    if Recoverable(g) {
      RecoverableIsAccepted(g, signal, settlement);
    } else {
      NamedIsRejected(g, signal, settlement);
    }
  }

  /** Every Session a run can leave behind, at any crash point, meets the condition. */
  lemma ReachableIsRecoverable(s: Sys)
    requires Good(s)
    ensures Recoverable(s.g)
  {
    hide LogFits, LogConsistent, OperationsAgree, Disciplined, Exchanging, Honest;
    if Driving(s) && Op(s).active.Some? {
      ActiveHookUnnamed(s);
    }
  }

  /** Whatever a Session was doing, a loss can be recovered from under any two fresh
      identities, and the restarted Session is idle again. */
  lemma RecoveryGoesThrough(s: Sys, signal: EntryId, settlement: EntryId)
    requires Good(s) && Driving(s) && FreshPair(s.g, signal, settlement)
    ensures Next(s, Crash).Some?
    ensures Next(Next(s, Crash).value, Recover(signal, settlement)).Some?
    ensures var recovered := Next(Next(s, Crash).value, Recover(signal, settlement)).value;
            && recovered.g == Recovered(s.g, signal, settlement) && Good(recovered)
            && Next(recovered, Restart).Some?
            && Next(recovered, Restart).value.g == recovered.g && Next(recovered, Restart).value.frame == Idle
            && recovered.g.session.current.None? && recovered.g.session.open == s.g.session.open
  {
    hide Good, FreshEntry, EndingLog, EndedOperation, EndingUsage, RecoveryEnding, AdmitMessageNext, AdmitCompactNext,
      OpenRoundNext, PureRequestHookNext, StopRoundNext, BeginRequestHookNext, CommitRequestHookNext, OpenManualNext,
      BeginMaintenanceNext, CommitMaintenanceNext, CheckpointNext, ManualCheckpointNext, ManualNoneNext, BeginModelNext,
      CommitModelNext, FinishModelNext, FinishMaintenanceNext, FinishQuietNext, OpenChainNext, PureCallHookNext,
      BeginCallHookNext, CommitCallHookNext, SettleCallNext, BeginToolNext, InvokeNext, CommitToolNext, CompletionNext,
      LifecycleNext;
    StepIsGood(s, Crash);
    StepIsGood(Next(s, Crash).value, Recover(signal, settlement));
  }

  // ---- What recovery leaves ----------------------------------------------------------

  /** It only appends, and writes nothing when nothing runs. */
  lemma RecoveryAppends(g: Graph, signal: EntryId, settlement: EntryId)
    requires Accepted(g)
    ensures g.log <= Recovered(g, signal, settlement).log
    ensures g.session.current.None? ==> Recovered(g, signal, settlement) == g
  {
    hide Accepted;
    if g.session.current.Some? && IsRunning(g, g.session.current.value) {
      EndingLogSplits(g.log, g.session.current.value, g.ops[g.session.current.value], RecoveryEnding(signal, settlement));
    }
  }

  /** No Operation runs afterwards, and a second recovery writes nothing. */
  lemma RecoveryIsFinal(g: Graph, signal: EntryId, settlement: EntryId, signal': EntryId, settlement': EntryId)
    requires Accepted(g)
    ensures var g' := Recovered(g, signal, settlement);
            && (forall o :: o in g'.ops ==> g'.ops[o].status != Running)
            && Recovered(g', signal', settlement') == g'
  {
    hide LogFits, LogConsistent, OperationsAgree, UsageAgrees, EndingLog;
    if g.session.current.Some? {
      OnlyRunning(g, g.session.current.value);
    }
  }

  /** Every published call has exactly one result and every Operation exactly one settlement. */
  lemma RecoverySettlesOnce(g: Graph, signal: EntryId, settlement: EntryId, o: OpId)
    requires Accepted(g) && FreshPair(g, signal, settlement) && Recoverable(g)
    requires o in Recovered(g, signal, settlement).ops
    ensures var g' := Recovered(g, signal, settlement);
            && SettlementCount(g'.log, o) == 1
            && forall p :: p in Published(g'.log, o) ==> ResultCount(g'.log, o, p.call) == 1
  {
    var g' := Recovered(g, signal, settlement);
    RecoverableIsAccepted(g, signal, settlement);
    RecoveryIsFinal(g, signal, settlement, signal, settlement);
    hide LogFits, LogConsistent, Recovered;
    assert OperationAgrees(g', o);
  }

  // ---- An accepted Session that recovery spoils ------------------------------------------

  const PLAIN := HookId(0, 1)
  const NAMED := HookId(0, 2)

  /** One input; a hook result whose evidence names another hook as informational; and
      that other hook now running. The validator accepts it, no run reaches it. */
  function Before(): Graph {
    var ev := Evidence(None, 10, [NAMED]);
    var op := NewOperation(Admission(MessageKind, Some(10)));
    Graph(Session(false, true, Some(1), None, map[]),
          map[1 := op.(active := Some(RequestHookEffect(11, 5, PLAIN, ev)), request := Some(RunningRequest(5, None, 10, [])))],
          [Entry(10, Some(1), Input(User, ""))])
  }

  function Spoiled(): Graph {
    var ev := Evidence(None, 10, [PLAIN]);
    var op := NewOperation(Admission(MessageKind, Some(10)));
    Graph(Session(false, true, Some(1), None, map[]),
          map[1 := op.(active := Some(RequestHookEffect(12, 5, NAMED, ev)), request := Some(RunningRequest(5, None, 10, [11])))],
          [Entry(10, Some(1), Input(User, "")),
           Entry(11, Some(1), HookResult(PLAIN, ForRequest(5), HookSucceeded, Observed, Some(Evidence(None, 10, [NAMED]))))])
  }

  lemma AdmittedIsAccepted()
    ensures var g := Graph(Session(false, true, Some(1), None, map[]),
                           map[1 := NewOperation(Admission(MessageKind, Some(10)))], [Entry(10, Some(1), Input(User, ""))]);
            Accepted(g)
  {
    EmptyIsGood();
    AdmitMessageAccepted(EmptySession().g, 1, 10, User, "");
  }

  lemma BeforeIsAccepted()
    ensures Accepted(Before())
  {
    AdmittedIsAccepted();
    var g := Graph(Session(false, true, Some(1), None, map[]),
                   map[1 := NewOperation(Admission(MessageKind, Some(10)))], [Entry(10, Some(1), Input(User, ""))]);
    var ev := Evidence(None, 10, [NAMED]);
    assert RefsAt(g.log, None, 10, 0);
    NoHooks(g.log, 1, ForRequest(5));
    assert Backed([NAMED], []) == [];
    BeginAccepted(g, 1, RequestHookEffect(11, 5, PLAIN, ev), Some(RunningRequest(5, None, 10, [])));
    assert WithOp(g, 1, Before().ops[1]) == Before();
  }

  /** The same Session between its two hooks. */
  function Between(): Graph {
    Spoiled().(ops := map[1 := Spoiled().ops[1].(active := None)])
  }

  lemma BetweenIsAccepted()
    ensures Accepted(Between())
  {
    hide Accepted;
    BeforeIsAccepted();
    HookAccepted(Before(), 1, HookSucceeded, Observed);
    var g := CommitHook(Before(), 1, HookSucceeded, Observed).value;
    assert g.log == Between().log;
    assert g.ops[1].request.value.hookResults == [11];
    assert g.ops == Between().ops;
    assert g == Between();
  }

  lemma BetweenHooks()
    ensures HooksOf(Between().log, 1, ForRequest(5)) == [PLAIN]
    ensures ActiveEvidence(Between().log, 1, 5, Evidence(None, 10, [PLAIN]))
  {
    var first, e := Before().log, Between().log[1];
    assert Between().log == first + [e];
    NoHooks(first, 1, ForRequest(5));
    SnocHooks(first, e, 1, ForRequest(5));
    assert RefsAt(Between().log, None, 10, 0);
    assert [PLAIN][1..] == [];
    assert Backed([PLAIN], [PLAIN]) == [PLAIN];
  }

  lemma NamedHookAgrees()
    ensures EffectAgrees(Between().log, 1, Spoiled().ops[1], Spoiled().ops[1].active.value)
    ensures RequestAgrees(Between().session, Between().log, 1, RunningRequest(5, None, 10, [11]))
  {
    hide Accepted, LogFits, LogConsistent;
    BetweenIsAccepted();
    BetweenHooks();
    OnlyRunning(Between(), 1);
  }

  lemma SpoiledIsAccepted()
    ensures Accepted(Spoiled())
  {
    hide Accepted, EffectAgrees, RequestAgrees;
    BetweenIsAccepted();
    NamedHookAgrees();
    BeginAccepted(Between(), 1, Spoiled().ops[1].active.value, Spoiled().ops[1].request);
    assert WithOp(Between(), 1, Spoiled().ops[1]) == Spoiled();
  }

  /** Acceptance alone does not make a Session recoverable. */
  lemma RecoveryCanSpoil(signal: EntryId, settlement: EntryId)
    ensures Accepted(Spoiled()) && !Accepted(Recovered(Spoiled(), signal, settlement))
  {
    SpoiledIsAccepted();
    assert Names(Spoiled().log[1], 1, 5, NAMED);
    NamedIsRejected(Spoiled(), signal, settlement);
  }
}
