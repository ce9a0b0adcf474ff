/** One concrete turn, so that no guard of the driver's steps is empty: a message, a model
    result with one call, the call's execution, and either the Operation's success or a
    crash after the execution began and the recovery that reports it unknown. */
module Walkthrough {
  import opened Records
  import opened Validator
  import opened Transactions
  import opened Driver
  import opened Runs

  const EVIDENCE := Evidence(None, 10, [])
  const REQUEST := RunningRequest(100, None, 10, [])
  const CALLED := Produced(11, Completed, "", 1, None, [Call(7, 12)], 100, EVIDENCE)

  function Asked(): Entry {
    Entry(10, Some(1), Input(User, "hi"))
  }

  function Answer(): Entry {
    Entry(11, Some(1), Assistant(Completed, "", 1, None, [Call(7, 12)], 100, EVIDENCE))
  }

  function ToolAnswer(): Entry {
    Entry(12, Some(1), ToolResult(7, 11, ResultSuccess, "ok", Observed, true, []))
  }

  /** A Session running Operation 1 with this register, log, frame and history. */
  function At(active: Option<Effect>, request: Option<RunningRequest>, pending: seq<Pending>, log: seq<Entry>, frame: Frame,
              invoked: seq<Invocation>, started: bool, reported: set<EntryId>): Sys {
    Sys(Graph(Session(false, true, Some(1), None, map[]),
              map[1 := Operation(Admission(MessageKind, Some(10)), Running, active, request, pending, map[], None, false)], log),
        frame, [], invoked, started, reported, if active.Some? || |log| > 1 then {(1, 100)} else {})
  }

  const PENDING := [Pending(11, 7, 12)]
  const ROUND := Rounding(100, [], 0, None, 10, false)
  const CHAIN := Chaining(7, [], 0, None)

  function Admitted(): Sys { At(None, None, [], [Asked()], Idle, [], false, {}) }

  function Opened(): Sys { At(None, None, [], [Asked()], ROUND, [], false, {}) }

  function Dispatching(): Sys {
    At(Some(ConversationEffect(11, 100, 1, EVIDENCE)), Some(REQUEST), [], [Asked()], ROUND, [], false, {})
  }

  function Called(): Sys { At(None, Some(REQUEST), PENDING, [Asked(), Answer()], Idle, [], false, {}) }

  function Chained(): Sys { At(None, Some(REQUEST), PENDING, [Asked(), Answer()], CHAIN, [], false, {}) }

  function Executing(started: bool): Sys {
    At(Some(ToolEffect(12, 7, [])), Some(REQUEST), PENDING, [Asked(), Answer()], CHAIN,
       if started then [Executed(1, 7)] else [], started, {})
  }

  function Settled1(): Sys { At(None, None, [], [Asked(), Answer(), ToolAnswer()], Idle, [Executed(1, 7)], true, {12}) }

  lemma AdmitStep()
    ensures Next(EmptySession(), AdmitMessageStep(1, 10, User, "hi")) == Some(Admitted())
  {
    var s := AdmitMessageNext(EmptySession(), 1, 10, User, "hi").value;
    assert s.g.log == [Asked()];
    assert s.g.ops == Admitted().g.ops;
  }

  lemma OpenStep()
    ensures Next(Admitted(), OpenRound(100, [])) == Some(Opened())
  {
    assert NewestMessage([Asked()], -1) == Some(10);
    assert FreshRequest(Admitted(), 100);
  }

  lemma DispatchStep()
    ensures Next(Opened(), BeginModelStep(11, 1)) == Some(Dispatching())
  {
    assert Ids([]) == [];
    assert RoundEvidence(ROUND) == EVIDENCE;
    var s := BeginModelNext(Opened(), 11, 1).value;
    assert s.g.ops == Dispatching().g.ops;
    assert {} + {(1, 100)} == {(1, 100)};
  }

  lemma AnswerIsFresh()
    ensures FreshProduced(Dispatching().g, 1, CALLED)
  {
    assert IdentityFree([Asked()], 12);
  }

  lemma CallStep()
    ensures Next(Dispatching(), CommitModelStep(Some(CALLED), None)) == Some(Called())
  {
    hide FreshProduced, FreshEntry;
    AnswerIsFresh();
    assert ProducedBy(Dispatching(), CALLED);
    assert CallsPending(1, Some(CALLED)) == PENDING;
    CalledGraph();
  }

  lemma CalledGraph()
    ensures CommitModelResult(Dispatching().g, 1, Some(CALLED), None) == Some(Called().g)
  {
    var g := CommitModelResult(Dispatching().g, 1, Some(CALLED), None).value;
    assert CallsPending(1, Some(CALLED)) == PENDING;
    assert [] + PENDING == PENDING;
    assert g.log == [Asked(), Answer()];
    assert g.ops == Called().g.ops;
  }

  lemma ChainStep()
    ensures Next(Called(), OpenChain([])) == Some(Chained())
  {
  }

  lemma ToolStep()
    ensures Next(Chained(), BeginToolStep) == Some(Executing(false))
  {
    assert Ids([]) == [];
    assert BeginToolNext(Chained()).value.g.ops == Executing(false).g.ops;
  }

  lemma InvokeStep()
    ensures Next(Executing(false), Invoke) == Some(Executing(true))
  {
    assert [] + [Executed(1, 7)] == [Executed(1, 7)];
  }

  lemma ResultStep()
    ensures Next(Executing(true), CommitToolStep(ResultSuccess, "ok", Observed)) == Some(Settled1())
  {
    var s := CommitToolNext(Executing(true), ResultSuccess, "ok", Observed).value;
    assert IndexOfCall(PENDING, 7) == 0;
    assert WithoutIndex(PENDING, 0) == [];
    assert s.g.log == [Asked(), Answer(), ToolAnswer()];
    assert s.g.ops == Settled1().g.ops;
    assert {} + {12} == {12};
  }

  /** The turn succeeds: its call ran once, and its result is the executor's. */
  lemma TurnSucceeds()
    ensures var s := Next(Settled1(), FinishQuietStep(Success, "", 20, 21));
            s.Some? && s.value.g.ops[1].status == Success && s.value.g.session.current.None?
  {
    assert FreshEntry(Settled1().g, 20) && FreshEntry(Settled1().g, 21);
  }

  function Crashed(): Sys { CrashNext(Executing(true)).value }

  lemma RecoveryStep()
    ensures Next(Executing(true), Crash) == Some(Crashed())
    ensures Next(Crashed(), Recover(20, 21)) ==
            Some(Recovered())
  {
    hide Settle, RecoveryEnding, AdmitMessageNext, AdmitCompactNext, OpenRoundNext, PureRequestHookNext, StopRoundNext,
      BeginRequestHookNext, CommitRequestHookNext, OpenManualNext, BeginMaintenanceNext, CommitMaintenanceNext,
      CheckpointNext, ManualCheckpointNext, ManualNoneNext, BeginModelNext, CommitModelNext, FinishModelNext,
      FinishMaintenanceNext, FinishQuietNext, OpenChainNext, PureCallHookNext, BeginCallHookNext, CommitCallHookNext,
      SettleCallNext, BeginToolNext, InvokeNext, CommitToolNext, CompletionNext, LifecycleNext, RestartNext;
    assert FreshEntry(Crashed().g, 20) && FreshEntry(Crashed().g, 21);
  }

  lemma RemnantOfCrash()
    ensures EndingLog([Asked(), Answer()], 1, Executing(true).g.ops[1], RecoveryEnding(20, 21))[2]
            == InterruptedEntry([Asked(), Answer()], 1, Some(ToolEffect(12, 7, [])), PENDING[0])
  {
    hide InterruptedEntry, SettlementEntry;
    var op := Executing(true).g.ops[1];
    var e := RecoveryEnding(20, 21);
    assert op.pending + CallsPending(1, None) == PENDING;
    assert EndingOpening([Asked(), Answer()], 1, op, e) == [Asked(), Answer()];
  }

  function Recovered(): Sys {
    Crashed().(g := Settle(Executing(true).g, 1, RecoveryEnding(20, 21)), started := false)
  }

  lemma RecoveredLog()
    ensures Recovered().g.ops[1].status == Interruption && |Recovered().g.log| > 2
    ensures Recovered().g.log[2] == InterruptedEntry([Asked(), Answer()], 1, Some(ToolEffect(12, 7, [])), PENDING[0])
  {
    hide InterruptedEntry, SettlementEntry;
    RemnantOfCrash();
  }

  /** A crash after the execution began: recovery settles the call as unknown. */
  lemma CrashIsUnknown()
    ensures Next(Executing(true), Crash) == Some(Crashed())
    ensures Next(Crashed(), Recover(20, 21)) == Some(Recovered())
    ensures Recovered().g.ops[1].status == Interruption
    ensures |Recovered().g.log| > 2 && Recovered().g.log[2].body.ToolResult?
    ensures var result := Recovered().g.log[2].body;
            result.answers == 7 && result.result == ResultInterrupted && result.knowledge == Unknown
  {
    hide Next, ResultText, Crashed, Recovered, Executing, Asked, Answer;
    RecoveryStep();
    RecoveredLog();
  }

  function Turn(): seq<Move> {
    [Create(0), Drive(0, AdmitMessageStep(1, 10, User, "hi")), Drive(0, OpenRound(100, [])), Drive(0, BeginModelStep(11, 1)),
     Drive(0, CommitModelStep(Some(CALLED), None)), Drive(0, OpenChain([])), Drive(0, BeginToolStep), Drive(0, Invoke),
     Drive(0, CommitToolStep(ResultSuccess, "ok", Observed)), Drive(0, FinishQuietStep(Success, "", 20, 21))]
  }

  lemma DriveOn(moves: seq<Move>, n: nat, step: Step, s: Sys, s': Sys)
    requires n < |moves| && moves[n] == Drive(0, step) && Next(s, step) == Some(s')
    requires Run(map[], moves[..n]) == Some(map[0 := s])
    ensures Run(map[], moves[..n + 1]) == Some(map[0 := s'])
  {
    hide Next;
    assert moves[..n + 1][..n] == moves[..n];
    assert map[0 := s][0 := s'] == map[0 := s'];
  }

  /** A whole run of the store reaches a settled success. */
  lemma ARunSucceeds()
    ensures Run(map[], Turn()).Some?
    ensures var store := Run(map[], Turn()).value;
            0 in store && 1 in store[0].g.ops && store[0].g.ops[1].status == Success && store[0].invoked == [Executed(1, 7)]
  {
    hide Next, Settled1, Executing, Chained, Called, Dispatching, Opened, Admitted, Run;
    var m := Turn();
    CreateRuns(m);
    AdmitStep();
    DriveOn(m, 1, m[1].step, EmptySession(), Admitted());
    OpenStep();
    DriveOn(m, 2, m[2].step, Admitted(), Opened());
    DispatchStep();
    DriveOn(m, 3, m[3].step, Opened(), Dispatching());
    CallStep();
    DriveOn(m, 4, m[4].step, Dispatching(), Called());
    ChainStep();
    DriveOn(m, 5, m[5].step, Called(), Chained());
    ToolStep();
    DriveOn(m, 6, m[6].step, Chained(), Executing(false));
    InvokeStep();
    DriveOn(m, 7, m[7].step, Executing(false), Executing(true));
    ResultStep();
    DriveOn(m, 8, m[8].step, Executing(true), Settled1());
    TurnSucceeds();
    FinishKeepsHistory();
    DriveOn(m, 9, m[9].step, Settled1(), Next(Settled1(), m[9].step).value);
    assert m[..10] == m;
  }

  lemma CreateRuns(m: seq<Move>)
    requires |m| > 0 && m[0] == Create(0)
    ensures Run(map[], m[..1]) == Some(map[0 := EmptySession()])
  {
    assert m[..1][..0] == [];
    assert Run(map[], []) == Some(map[]);
    assert map[][0 := EmptySession()] == map[0 := EmptySession()];
  }

  lemma FinishKeepsHistory()
    requires Next(Settled1(), FinishQuietStep(Success, "", 20, 21)).Some?
    ensures Next(Settled1(), FinishQuietStep(Success, "", 20, 21)).value.invoked == [Executed(1, 7)]
    ensures 1 in Next(Settled1(), FinishQuietStep(Success, "", 20, 21)).value.g.ops
  {
  }
}
