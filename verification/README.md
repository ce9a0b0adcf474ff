# Verified model of the lightcode Session harness

The harness keeps each Session as an append-only entry log, one Session register and one
register per Operation, and changes them only through atomic transactions. Every read
runs one validator over the whole graph. The steps are written apart from that validator,
so this project proves that they keep it satisfied, that forking and recovery do, and what
the projected conversation, the coordinator, the agent loop and the stream assembler
guarantee on top. What the steps write is stated apart from the functions that write it:
entries field by field, fixed texts as literals, totals as sums, copies against originals.

## What is modelled

| file | part of the system |
|---|---|
| `Records.dfy` | the durable records; an entry's sequence number is its position in the log |
| `Validator.dfy` | the validator's verdict `Accepted`: each entry against the log before it, the order-insensitive checks, the registers, the usage totals |
| `Transactions.dfy` | every durable transaction as a function on the graph |
| `LogLemmas.dfy`, `LogFacts.dfy`, `Growth.dfy`, `Appends.dfy` | how the validator's views move when entries are appended |
| `Contents.dfy`, `Written.dfy`, `Memory.dfy` | what each transaction writes, what each driver step hands to its transaction, and what it leaves in the driver's memory, field by field |
| `Tallies.dfy` | the usage totals as integer sums over what the committed producers report |
| `Settling.dfy`, `Commits.dfy` | each transaction keeps the graph accepted, given what its caller supplies |
| `View.dfy` | the projected conversation and the cut a checkpoint makes |
| `Driver.dfy` | one Session under its execution driver: what the driver holds in memory between two transactions, and every step, with crashes |
| `Discipline.dfy`, `RoundSteps.dfy`, `MaintenanceSteps.dfy`, `CallSteps.dfy`, `Shape.dfy` | the driver's memory agrees with the records, so each step supplies what its transaction needs |
| `History.dfy` | serial Operations, resolved inputs, the newest checkpoint, increasing cuts |
| `Projection.dfy`, `Pairing.dfy`, `Exchanges.dfy` | what a checkpoint replaces, occurrence pairing, complete exchanges at every request |
| `Fork.dfy`, `Recovery.dfy`, `Invocations.dfy`, `Interrupts.dfy`, `Estimate.dfy`, `Charges.dfy` | fork, restart recovery, at-most-once effects, interruption, cost, single charging |
| `Notices.dfy`, `Markers.dfy` | over every run: what results say of executions cut short, and when an estimate is known |
| `Runs.dfy` | runs of the whole store: create, drive, crash, recover, fork, in any interleaving |
| `Snapshots.dfy`, `SessionStore.dfy` | register revisions, the comparison before each write and the checked totals; the stored records rewritten in place, one method a transaction |
| `Passes.dfy` | two of the validator's loops against the predicates they decide |
| `Coordinator.dfy`, `Background.dfy` | the concurrent critical sections of one Session, and the delivery of its background completions among them |
| `Attempts.dfy`, `AgentRun.dfy`, `ToolStream.dfy` | the physical model-attempt loop, the sequential agent loop and the streamed tool-call assembler |
| `Walkthrough.dfy` | no general result: one literal run and one literal crash, showing that the steps' guards can be met |

A transaction and its view adoption are one step, and a crash may fall between any two
steps. What models, tools, hooks and strategies return are step parameters. A generated
identity is any identity the Session does not use; a fork's generated identities are an
injective renaming of the source ones. The driver's steps assume that nothing else writes
their Session; `SessionStore.dfy` drops that assumption and proves each transaction with
foreign writers between the view and the commit. The main results are `Runs.EveryRunIsGood` and the
lemmas that read a good Session.

One property turned out narrower than the validator suggests. The validator checks an
active request hook only against its own consumed evidence, so it accepts a Session in
which earlier recorded evidence already names that hook. Recovery of such a Session
records the interrupted hook after the evidence that names it, and the next read rejects
the Session. `Recovery.RecoveryKeepsAccepted` gives the exact condition,
`Recovery.RecoveryCanSpoil` a concrete Session, and `Recovery.ReachableIsRecoverable`
shows that no run leaves one behind.

## Model

| member | source | states |
|---|---|---|
| `Runs.EveryRunIsGood` | harness/graph.go:184-319 | in every run of the store, with steps, crashes, recoveries and forks in any interleaving, every Session passes the whole validator, its driver agrees with it, its log is disciplined, its view opens exactly the unsettled calls, and its effects are invoked at most once |
| `Shape.NextKeeps` | harness/graph.go:269-319 | each of the driver's steps keeps the verdict and the driver's discipline, with nothing assumed about the values it receives |
| `Runs.UsageConserved` | harness/graph.go:904-981 | the Session total and each Operation total list exactly the models some committed producer reported on, and each of their three counts is the integer sum of those reports |
| `Snapshots.AddedByCount` | harness/usage.go:26-68 | checked addition gives nothing exactly when a model both totals list would leave the signed 64-bit range in some count, and otherwise every listed model's counts are the two sums |
| `Snapshots.AddedTallies` | harness/usage.go:42-68 | checked addition of two sums of reports is the sum of both |
| `Runs.FactsRecordedOnce` | harness/graph.go:1128-1148 | a maintenance fact is recorded on one checkpoint or one settlement, never twice |
| `Runs.SettledForGood` | harness/effect.go:818-836 | a settled Operation is never changed again, so a committed success stays |
| `Runs.LogAppends` | harness/storage.go:115-138 | no step changes or removes an entry |
| `Settling.SettleAccepted` | harness/effect.go:837-1169 | the terminal settlement of any running Operation, from a quiet state or any live effect, leaves the graph accepted: every call answered once, one settlement, empty registers, exact totals |
| `Settling.InterruptAll` | harness/effect.go:985-1019 | interrupting the remaining calls in order leaves no unresolved call and keeps the log accepted |
| `Contents.AdmissionWrites` | harness/harness.go:1712-1826 | admission happens exactly on a new identity in an open idle Session; it writes the given input under the given origin, and an Operation that published nothing and is charged nothing |
| `Contents.ModelIntentWrites` | harness/effect.go:457-592 | a conversation intent publishes its request or moves the published one, keeping its hook results; a maintenance intent publishes the suspended one only where none is |
| `Contents.RequestHookIntentWrites` | harness/effect.go:1850-1942 | a request-hook intent publishes its request only where none is published |
| `Contents.CallIntentWrites` | harness/effect.go:1733-1836 | call intents exist exactly for the first pending call, the tool's under that call's reservation |
| `Contents.ModelResultWrites` | harness/effect.go:609-816 | payload and literal continuation signal are the only new entries; the new calls join the pending ones in order; the request ends exactly when nothing is pending |
| `Contents.MaintenanceResultWrites` | harness/effect.go:742-767 | a completed maintenance effect appends nothing and raises the marker |
| `Contents.ExecutedWrites` | harness/effect.go:1999-2154 | an executor's result exists exactly under its call's live tool effect, and records that effect's selection under the reservation |
| `Contents.ImmediateWrites` | harness/effect.go:1999-2154 | an immediate result exists exactly on a quiet Operation and takes exactly its call off the pending list |
| `Contents.HookWrites` | harness/effect.go:2422-2554 | a hook is recorded under its reservation and binding; a request's own joins the published hook results at the end |
| `Contents.EndingWrites` | harness/effect.go:837-1169 | payload, interrupted hook, one interrupted result for each call left, literal interruption signal exactly for an interruption, and last the settlement, whose identity, producer, request and evidence are given case by case |
| `Contents.SettlementWrites` | harness/effect.go:1100-1169 | the settled registers hold no effect, request or pending call, the Session is idle, and the marker stands exactly when it stood and no fact was carried |
| `Contents.RecoveryWrites` | harness/recover.go:70-94 | restart recovery settles as an interruption with its literal detail, no usage and no carrier |
| `Contents.CheckpointWrites` | harness/compact.go:1041-1148 | the checkpoint entry's every field, the Session register naming it, the marker retired, and the request moved, published or left out |
| `Contents.RebuiltWrites` | harness/compact.go:1231-1249 | the rebuilt boundary is the newest message after the cut, and the checkpoint where there is none |
| `Contents.CompletionWrites` | harness/background.go:305-385 | a closed completion appends one signal of no Operation and changes no register |
| `Contents.LifecycleWrites` | harness/harness.go:783-960 | exactly an idle Session opens or archives, and nothing else of it changes |
| `Written.FinishWrites` | harness/execution.go:250-306 | each finishing step settles with its own status, detail, payload, usage and carrier, the facts all and only the unrecorded ones, a maintenance terminal marked as one |
| `Written.CheckpointStepWrites` | harness/compact.go:898-926 | an automatic checkpoint publishes its messages and cut, every unrecorded fact, and the round's frozen view with every hook that contributed |
| `Written.ManualCheckpointWrites` | harness/compact.go:1155-1172 | a manual checkpoint and then an empty success, in one transaction |
| `Written.IntentWrites` | harness/effect.go:457-592 | each intent's effect: the next effectful hook of the plan, the round's request over its frozen view, the procedure's request, or the first pending call with the selection of its whole chain |
| `Written.SettleCallWrites` | harness/effect.go:2363-2412 | an immediate result is stored with its own text, under the hook notice exactly after a hook of unknown outcome, and with the chain's selection exactly when accepted |
| `Written.CommitToolWrites` | harness/effect.go:1576-1699 | an executor's result is stored with its own text, under the execution notice exactly when its knowledge is unknown; without an invocation it is an interruption before the start |
| `Written.ModelStepWrites` | harness/effect.go:228-345 | a model result takes its intent's identity, request and evidence |
| `Memory.ReportsWereInvoked` | harness/effect.go:1576-1699 | in every run a result behind a tool intent that says more than an interruption before the start is of an invoked executor |
| `Memory.MemoryMoves` | harness/context.go:276-358 | after every step: the unrecorded facts, the frame, and the histories of invocations, reports and intents, step by step on the fields |
| `Memory.UsageReachesItsFact` | harness/compact.go:342-362 | the usage a maintenance result reports is recorded on the fact of the very request its effect ran, and on no other |
| `Memory.CheckpointCutsWithin` | harness/compact.go:795-825 | a checkpoint cuts at the prior checkpoint, or at a message after its cut and not after the frozen projection |
| `Memory.NeverStuck` | harness/execution.go:250-306 | in every reachable state of a live process the current Operation's live effect can end, or the quiet Operation settle, and the invariants hold afterwards |
| `Commits.AdmitMessageAccepted` | harness/harness.go:1712-1826 | admission of a message keeps the graph accepted |
| `Commits.AdmitCompactAccepted` | harness/harness.go:1712-1826 | admission of a compact Operation keeps the graph accepted |
| `Commits.BeginAccepted` | harness/effect.go:457-592 | a committed intent that agrees with the log keeps the graph accepted |
| `Commits.ModelResultAccepted` | harness/effect.go:609-816 | a running model result with its payload, reservations and continuation signal keeps the graph accepted |
| `Commits.MaintenanceResultAccepted` | harness/effect.go:742-767 | the empty running result of a maintenance effect keeps the graph accepted |
| `Commits.ResultAccepted` | harness/effect.go:1999-2154 | a settled call's result keeps the graph accepted and takes exactly that call off the pending list |
| `Commits.HookAccepted` | harness/effect.go:2422-2554 | a settled hook keeps the graph accepted and extends the published request |
| `Commits.CheckpointAccepted` | harness/compact.go:955-1197 | a checkpoint with its facts, rebuilt request references and usage keeps the graph accepted |
| `Commits.CompletionAccepted` | harness/background.go:305-385 | an ownerless completion signal keeps the graph accepted whatever is running |
| `Commits.LifecycleAccepted` | harness/harness.go:783-960 | opening and archiving an idle Session keeps the graph accepted |
| `Appends.RunsFirst` | harness/graph.go:871-895 | a hook bound to the first pending call runs while every earlier published call is answered |
| `Appends.UnresolvedPublish` | harness/effect.go:737-752 | new calls join the unresolved ones at the end, in message order |
| `Appends.UnresolvedSettle` | harness/effect.go:2085-2092 | a result removes exactly its call from the unresolved ones |
| `LogFacts.ResultAtMostOnce` | harness/graph.go:727-772 | in an accepted log no call has two results |
| `LogFacts.ResultCommitted` | harness/graph.go:410-455 | a reserved identity is committed exactly when a result answers its call |
| `Discipline.PlanReconciles` | harness/graph.go:1284-1319 | the contributions of a hook plan reconcile with the results of its effectful hooks, pure ones staying informational |
| `Discipline.ProjectedResolves` | harness/context.go:384-441 | the references a request boundary freezes always resolve |
| `Discipline.HooksForPublished` | harness/graph.go:774-868 | hooks run only for calls the Operation published |
| `RoundSteps.OpenRoundKeeps` | harness/context.go:276-358 | minting a request over the frozen projection keeps the invariant |
| `RoundSteps.BeginRequestHookKeeps` | harness/effect.go:1850-1942 | a request-hook intent keeps the invariant |
| `RoundSteps.CommitRequestHookKeeps` | harness/effect.go:2616-2694 | a settled request hook, failed or not, keeps the invariant |
| `RoundSteps.BeginModelKeeps` | harness/effect.go:228-250 | a conversation intent over the round's evidence keeps the invariant |
| `MaintenanceSteps.BeginMaintenanceKeeps` | harness/compact.go:411-445 | retaining the input and committing a maintenance intent keep the invariant |
| `MaintenanceSteps.CheckpointKeeps` | harness/compact.go:898-926 | an automatic checkpoint keeps the invariant and moves the round to the rebuilt projection |
| `MaintenanceSteps.ManualCheckpointKeeps` | harness/compact.go:1155-1172 | a manual checkpoint and its Operation's success, in one transaction, keep the invariant |
| `MaintenanceSteps.ManualNoneKeeps` | harness/compact.go:1155-1172 | a manual procedure that planned none settles its facts on the success |
| `MaintenanceSteps.FinishMaintenanceKeeps` | harness/compact.go:762-777 | a maintenance terminal keeps the invariant, evidence and facts settled once |
| `CallSteps.CommitModelKeeps` | harness/effect.go:228-345 | after a model result every pending call starts with no hook recorded for it |
| `CallSteps.CommitCallHookKeeps` | harness/effect.go:2170-2340 | a settled call hook keeps the chain in step with the recorded results |
| `CallSteps.SettleCallKeeps` | harness/effect.go:2363-2412 | an immediate, denied, failed or interrupted call result keeps the invariant |
| `CallSteps.CommitToolKeeps` | harness/effect.go:1576-1699 | an executor's result, or the cancellation before its start, keeps the invariant |
| `CallSteps.CrashKeeps` | harness/recover.go:20-30 | a crash between any two steps leaves a Session recovery accepts |
| `CallSteps.RecoverKeeps` | harness/recover.go:70-94 | recovery of a crashed Session keeps the invariant |
| `CallSteps.FinishQuietKeeps` | harness/execution.go:250-306 | the outer terminal of a quiet Operation keeps the invariant |
| `History.NextDisciplined` | harness/graph.go:457-488 | every step keeps Operations serial, no call pending at an input, results after their publishers, the register on the newest checkpoint and cuts increasing |
| `History.QuietIsResolved` | harness/graph.go:658-693 | with no Operation running no call anywhere is pending |
| `History.ProposalCutsLater` | harness/compact.go:795-825 | a valid proposal cuts strictly after every earlier cut |
| `Projection.CheckpointReplaces` | harness/compact.go:795-873 | one checkpoint replaces exactly the covered prefix: its messages, then the old view from the covered count on |
| `Projection.ArrivalsJoin` | harness/context.go:384-441 | later entries only extend the projected view |
| `Projection.EntrySays` | harness/context.go:458-507 | the message each kind of entry adds: an input's, an output's with its calls, a result's or a signal's, and none of the other kinds |
| `Projection.EscapedReadsBack` | harness/context.go:509-515 | an escaped signal text holds no markup and reads back, by an independent decoder, as the text |
| `Projection.RebuiltIsProjected` | harness/compact.go:1231-1249 | the boundary a checkpoint publishes is the one the rebuilt projection reports |
| `Pairing.ValidateToolPairing` | harness/compact.go:316-337 | the pairing check accepts exactly the views made of complete exchanges |
| `Pairing.ScanIsPairing` | harness/compact.go:269-286 | the occurrence scan over queues computes exactly the source pairing |
| `Pairing.ClosureImpliesPairing` | harness/compact.go:287-307 | for a well-paired source a closed proposal always pairs, so the last guard never rejects it |
| `Pairing.PairingIsImage` | harness/compact.go:231-308 | a retained result answers the copy of the very occurrence it answered in the source |
| `Pairing.ResolveAccepts` | harness/compact.go:231-308 | on a well-paired source a proposal is accepted if and only if it is shaped and occurrence-closed |
| `Pairing.ResolvedMessages` | harness/compact.go:231-308 | acceptance in terms of items alone: positions inside and rising, authored messages without calls, a result kept exactly when its opening message is; the accepted messages are the frozen and authored ones, item by item |
| `Pairing.PairedMeans` | harness/compact.go:316-337 | a view is paired exactly when, call by call, openings and answers alternate and none is left open |
| `Exchanges.NextExchanges` | harness/context.go:384-441 | every step keeps the calls open in the projected view equal to the unsettled calls |
| `Exchanges.BoundaryViewPaired` | harness/context.go:276-358 | at every request boundary the view holds complete exchanges only |
| `Fork.ForkAccepted` | harness/fork.go:211-315 | forking at any user-origin input of a reachable Session gives a destination the whole validator accepts |
| `Fork.ForkPreservesProjection` | harness/fork.go:275-300 | the copied prefix projects the conversation the source projected before the boundary input |
| `Fork.CopyKeepsContent` | harness/fork.go:323-427 | every copied entry keeps its kind and each field: origin, text, status, source, request, calls, answers, knowledge, selection, hooks, signal kind, messages; its references name the copies of what they named |
| `Fork.ForkPointsCopied` | harness/fork.go:239 | a copied entry is a fork point exactly when its source is |
| `Runs.ForkGoesThrough` | harness/fork.go:41-200 | every user message can be forked at; the destination is open, idle but for the new message and uncharged, and its view is the source's view there with that message added |
| `Fork.RefsCopied` | harness/fork.go:433-443 | resolved evidence still resolves after its references are rewritten |
| `Fork.CutCopied` | harness/fork.go:323-427 | a safe cut stays safe in the copy |
| `Fork.CopiedUsage` | harness/fork.go:339-345 | nothing copied carries usage |
| `Recovery.RecoveryKeepsAccepted` | harness/recover.go:70-94 | recovery keeps an accepted Session accepted if and only if no earlier evidence names the interrupted request hook |
| `Recovery.ReachableIsRecoverable` | harness/recover.go:30-66 | every Session a run can leave behind meets that condition |
| `Recovery.RecoveryCanSpoil` | harness/graph.go:1289-1319 | a concrete accepted Session that recovery makes unacceptable |
| `Recovery.RecoverySettlesOnce` | harness/effect.go:837-1169 | after recovery every published call has one result and every Operation one settlement |
| `Recovery.RecoveryIsFinal` | harness/recover.go:30-66 | no Operation runs afterwards and a second recovery writes nothing |
| `Recovery.RecoveryGoesThrough` | harness/recover.go:20-94 | from any state of a run a loss, recovery and restart go through and leave the Session idle and good |
| `Recovery.RecoveryAppends` | harness/recover.go:20-30 | recovery only appends, and leaves an idle Session untouched |
| `Notices.InterruptedResults` | harness/effect.go:985-1019 | each call left gets one result, in order and with every field given; its text is the literal execution notice exactly under the call's own live tool effect, else the literal hook notice exactly under its live hook or after a recorded hook of unknown outcome, else the plain interruption |
| `Notices.NoticeTells` | harness/effect.go:52-61 | the text of an interrupted result determines which of the three held |
| `Notices.EveryRunIsNoticed` | harness/effect.go:45-61 | in every run each result of unknown execution starts with the execution notice, and every other result of a call whose hook ended unknown with the hook notice |
| `Notices.RecoveredCallMayHaveRun` | harness/recover.go:70-94 | recovery never says that the tool was not executed of a call whose executor was invoked |
| `Invocations.NextHonest` | harness/effect.go:1576-1699 | each execute and each effectful hook is invoked at most once, each logical model request is dispatched at most once, and all under their committed intent, through crashes and recovery; a result that says not started, of an executed call, is the executor's own |
| `Attempts.RunModelAttempts` | harness/attempt.go:46-86 | every physical attempt falls under the one committed intent; the loop ends where and how its script says; a broken attempt's stream is closed once |
| `Attempts.DispatchEffect` | harness/effect.go:228-302 | one logical effect commits one intent, attempts nothing without it or behind a cancellation, and assembles at most one stream, the accepted one, once |
| `Attempts.AcceptsLast` | harness/attempt.go:46-86 | no attempt before the accepted one supplied a stream, and none follows it |
| `Invocations.InvocationIsNew` | harness/effect.go:1733-1836 | the effect about to be invoked was never invoked before |
| `Invocations.SettlementRecords` | harness/effect.go:906-1019 | a settlement records the consequence of the effect it cuts short |
| `Interrupts.InterruptedNeverSucceeds` | harness/context.go:527-546 | once an Interrupt saw an Operation as current, no later state has it in success |
| `Interrupts.InterruptMarks` | harness/context.go:527-546 | an Interrupt names exactly the current Operation in the marker and cancels exactly an installed run |
| `Interrupts.EntryConsumes` | harness/execution.go:124-160 | an execution is entered once, refused exactly behind its own marker or a closed group, and consumes exactly its own marker |
| `Interrupts.CancelledStays` | harness/context.go:538-546 | a cancelled execution stays cancelled until the next admission or the loss of the process |
| `Interrupts.SuccessIsGuarded` | harness/effect.go:609-624 | a success is published only by an entered, uncancelled execution whose Operation no marker names |
| `Interrupts.RefusedOnlyInterrupts` | harness/execution.go:124-160 | an execution refused at its entry does nothing but settle as interrupted |
| `Interrupts.SuccessIsPublished` | harness/effect.go:609-624 | only a guarded success publication of the current Operation puts it in success |
| `Estimate.EstimateGraphCosts` | harness/estimate.go:117-175 | one walk computes every Operation's estimate and the Session's, each producer under its own Operation's rates |
| `Estimate.EstimateIsSum` | harness/estimate.go:104-116 | an Operation's estimate is known exactly when its marker is clear and every producer it recorded has a price, and then it is the real sum of those prices |
| `Estimate.SessionEstimateIsSum` | harness/estimate.go:114-175 | the same of the Session: every marker clear, every owned producer priced, and the sum over all of them |
| `Estimate.KnownEverywhere` | harness/estimate.go:114-160 | a Session whose entries are all priced has every Operation priced |
| `Markers.EveryRunIsMarked` | harness/compact.go:120-159 | in every run a raised marker stands for facts still in hand or for a process loss, and on a settled Operation only for a loss |
| `Markers.EndedEstimate` | harness/estimate.go:161-175 | in every run the estimate of an Operation that ended in success or failure is known exactly when all its producers are priced |
| `Estimate.CostEstimate.AddValue` | harness/estimate.go:80-92 | unknown is contagious and never a partial total |
| `Estimate.KnownReports` | harness/estimate.go:117-160 | under a known total every durable producer reports its usage |
| `Estimate.KnownEstimateIsComplete` | harness/estimate.go:161-175 | a known estimate of a settled Operation has a reported usage for every model intent it committed, those cut off before their callback included |
| `Estimate.EveryRunRecordsIntents` | harness/effect.go:457-592 | in every run the recorded intents are all there are: each live model effect's and each dispatched request's |
| `Estimate.EveryRunIsCosted` | harness/compact.go:120-159 | in every run whose ready and continue outputs carry a payload, a committed model intent has a durable producer, a live effect, a waiting fact under the marker, or the marker of what process loss dropped |
| `Charges.EveryRunChargesOnce` | harness/estimate.go:104-116 | in every run a model request has at most one durable producer in its Operation, and a request still in hand has none |
| `Charges.KnownEstimateChargesOnce` | harness/estimate.go:117-175 | a known estimate of a settled Operation charges each model intent it committed exactly once, on the one producer that reports its usage |
| `Charges.ForkCharges` | harness/estimate.go:137-141 | a copied prefix charges nothing |
| `Charges.EndingSlots` | harness/effect.go:837-1169 | a settlement charges through its payload, its own producer and its facts, and through nothing else it writes |
| `Passes.BuildCutSafety` | harness/graph.go:207-241 | one cumulative pass marks a boundary exactly when its cut is unsafe and names a genuine offender |
| `Passes.SafeCutStays` | harness/graph.go:199-206 | appending entries never turns a safe cut unsafe |
| `Passes.ValidateEvidenceHookOrder` | harness/graph.go:1289-1319 | accepts exactly the provenance that names every earlier result completely and in order and no later one |
| `Snapshots.FollowsOn` | harness/storage.go:115-138 | through any transactions of any writers a register whose revision stands is unchanged, and with the Session register stand the log and the Operations |
| `Snapshots.CommitsWhatItSaw` | harness/effect.go:670-678 | a commit whose comparison passed acts on exactly the records it was decided on, the rebuilt boundary read off the view included |
| `Snapshots.ComparisonDecides` | harness/effect.go:670-678 | a register comparison passes only on the register the view holds, and fails only when some transaction wrote since |
| `Snapshots.AdoptionFollows` | harness/effect.go:806-813 | the view adopted after a commit is again a snapshot of the stored records |
| `Snapshots.EndingCharges` | harness/effect.go:846-868 | unless it overflows, adding a terminal's merged contribution charges its payload or usage and its facts exactly once |
| `Snapshots.FactsCharge` | harness/compact.go:368-383 | unless it overflows, the facts' contribution is their charge one by one |
| `SessionStore.Store.PublishAdmission` | harness/harness.go:1610-1826 | resolves an existing identity, then a violated precondition, then the race; otherwise writes exactly the input and the new Operation; a readable Session stays readable |
| `SessionStore.Store.BeginModelEffect` | harness/effect.go:457-592 | commits the intent exactly on a quiet, unraced Operation, with the request it publishes or moves given field by field; an intent that agrees with the log keeps the Session readable |
| `SessionStore.Store.BeginRequestHookEffect` | harness/effect.go:1850-1942 | the same for a request hook, publishing the request when none is published |
| `SessionStore.Store.BeginPendingCallEffect` | harness/effect.go:1733-1836 | the same, addressing exactly the first pending call, under its reservation or a fresh identity |
| `SessionStore.Store.CommitEffectResult` | harness/effect.go:609-816 | a running or terminal model result: precondition, then race, then overflow, then all of it, and a readable Session stays readable |
| `SessionStore.Store.CommitToolResult` | harness/effect.go:1999-2154 | settles exactly one pending call, from its intent or from a quiet Operation, unless raced, the result's every field given; a readable Session stays readable |
| `SessionStore.Store.CommitHookResult` | harness/effect.go:2422-2554 | records the hook under its reservation and binding and extends a bound request at the end, unless raced; a readable Session stays readable |
| `SessionStore.Store.CommitTerminalSettlement` | harness/effect.go:837-1169 | writes payload, hook remnant, interrupted results with their notices, signal and settlement in that order, every field given, and both registers, or nothing on overflow |
| `SessionStore.Store.CommitContextCheckpoint` | harness/compact.go:1041-1148 | writes the checkpoint, names it, retires the marker, charges its facts and advances or publishes the request, or nothing on overflow |
| `SessionStore.Store.CommitPublication` | harness/compact.go:955-1197 | one maintenance publication in one transaction: the interruption, the checkpoint, or a manual procedure's checkpoint with its success |
| `SessionStore.Store.DeliverClosedCompletion` | harness/background.go:305-385 | appends the operationless signal unless raced, and makes every older view stale |
| `SessionStore.Store.RecoverRunningOperation` | harness/recover.go:70-94 | settles a running Operation as the recovery interruption, its notices given, and leaves a settled one alone |
| `SessionStore.Store.Recover` | harness/recover.go:30-66 | the loop over registers leaves exactly the recovered Session |
| `SessionStore.CopyForkPrefix` | harness/fork.go:275-300 | the copy loop with its identity maps computes the copied prefix, whose contents `Fork.CopyKeepsContent` gives, and never fails on a reachable source |
| `Coordinator.EveryInterleaving` | harness/harness.go:1864-1929 | in every interleaving, while the Harness lives, waiting messages have a current Operation or an installed run ahead of them |
| `Coordinator.LeavesInOrder` | harness/harness.go:1169-1182 | items leave each buffer in the order they joined it, each once |
| `Coordinator.DeliveredOnce` | harness/harness.go:1610-1699 | no buffered item is admitted twice |
| `Coordinator.DeliversTheHead` | harness/harness.go:1610-1699 | an admission removes exactly the selected head, and nothing where a closure or the Harness loss emptied the buffers after the selection |
| `Coordinator.JoinsByMode` | harness/harness.go:680-687 | over every run the items that joined each buffer are exactly those submitted in its mode or steered, in order |
| `Coordinator.ModesApart` | harness/harness.go:680-687 | an item submitted queued never joins steering and a regular or steered one never the queue |
| `Coordinator.SteeringFirst` | harness/harness.go:1884-1896 | a queued head is selected only with no steering waiting |
| `Coordinator.Cell.Route` | harness/harness.go:655-709 | under the reservation a submission is refused, or joins the end of `queued` exactly in queued mode and of `steering` exactly otherwise while the Session is active, or goes on to admit; the other buffer stands |
| `Coordinator.Cell.BackgroundDeliveryPriority` | harness/background.go:161-171 | receivability outranks activity; a completion is steered under the same hold exactly when the Session is receivable and active |
| `Coordinator.Cell.DropBufferedLocked` | harness/harness.go:1169-1182 | only the exact selected item leaves, from the head of its buffer |
| `Coordinator.Cell.ScanBuffers` | harness/harness.go:1864-1929 | one scan of the drain loop |
| `Coordinator.Cell.RetireRun` | harness/execution.go:47-75 | the retirement tail clears only its own run slot |
| `Background.EveryInterleaving` | harness/background.go:66-145 | in every interleaving each member is claimed by one caller and closed once, the group, its callers, the reservation and the deliveries agreeing |
| `Background.OnePath` | harness/background.go:161-293 | in every interleaving a completion takes at most one of steering, admission and closed signal, once |
| `Background.AdmittedOnce` | harness/harness.go:1864-1929 | a completion becomes at most one Operation, idle or drained, and never one beside its closed signal |
| `Background.LeavesAfterItsAttempt` | harness/background.go:191-214 | a member leaves its group only when its claim's winner has ended the attempt |
| `Background.NothingAfter` | harness/background.go:215-245 | once its attempt delivered or ended, a completion is delivered no more |
| `Background.ReachesOpenSession` | harness/harness.go:1136-1138 | a completion in delivery finds its Session open and present, so only Harness loss or a child's closure sends it to the signal |
| `Background.SteeredWaits` | harness/background.go:161-171 | while the Harness lives a waiting steered completion has an Operation or a run ahead of it |
| `Background.TakesWhenQuiet` | harness/background.go:394-454 | a settlement takes the obligation to deliver only of a terminal, retired and quiet child, and leaves the other trigger nothing |
| `Background.TakenOnce` | harness/background.go:394-454 | each child's obligation is taken by at most one of its triggers |
| `Background.CallersProceed` | harness/background.go:215-293 | no caller is stuck: only a reservation held elsewhere makes it wait |
| `Background.CoordinatorRun` | harness/background.go:258-293 | seen from the coordinator alone, every interleaving is one of the coordinator's, so its guarantees hold with completions in flight |
| `Background.ReopensEmpty` | harness/background.go:606-748 | a root Stop reopens an empty group |
| `Background.ClosedForGood` | harness/background.go:606-640 | a child's closure is permanent and admits nothing |
| `Background.Cell.AdmitMember` | harness/background.go:66-97 | admits exactly for an open Session of a live Harness into an open group with fewer live members of the kind than its cap |
| `Background.Cell.ClaimMember` | harness/background.go:104-114 | the first claim wins |
| `Background.Cell.FinishMember` | harness/background.go:125-137 | removes and closes the member once |
| `Background.Cell.SettleCheck` | harness/background.go:415-448 | releases exactly behind the still current settled Operation, delivers exactly for a quiet child, else waits; a taken obligation is gone |
| `Background.Cell.StopBegins` | harness/background.go:626-655 | a child closes and drops its buffers, a root stops its live members, one without members does nothing |
| `AgentRun.Run` | agent/run.go:21-115 | for all behaviours the run ends where and how they say, failed and unfinished runs included, and the tool boundary received exactly the batches it went through and the started part of the last |
| `AgentRun.RunRound` | agent/run.go:39-113 | one round goes on or ends for its own reason, having handed over the named calls of its batch |
| `AgentRun.Dispatch` | agent/run.go:94-113 | a batch stops before call i on cancellation, after call i on its interrupted or invalid result, and the history holds the calls up to there |
| `AgentRun.RunDetermined` | agent/run.go:21-115 | the behaviours alone fix the round, the call and the outcome a run ends with |
| `AgentRun.TerminalsValid` | agent/settlement.go:131-212 | every terminal a run builds is valid, so the internal panic is unreachable |
| `AgentRun.DispositionTable` | agent/settlement.go:10-60 | the disposition table by output status and detail |
| `AgentRun.EndsBeforeSettlement` | agent/run.go:39-70 | a round stopped before its settlement retains the last completed output and no other, with the literal detail; a failed boundary leaves no terminal |
| `AgentRun.EndsAfterSettlement` | agent/run.go:70-113 | the terminal of a settled round, disposition by disposition: status, output, unstarted calls and detail |
| `AgentRun.HandedPerBatch` | agent/run.go:94-113 | each batch was handed over whole and in order, the last one up to its stop, and no other call |
| `AgentRun.HandedOnce` | agent/run.go:94-113 | no call of a batch is handed over twice |
| `AgentRun.TerminalAccounts` | agent/run.go:94-113 | the calls handed over of the terminal's completed output, then its unstarted calls, are exactly its calls in order |
| `AgentRun.StartedOrUnstarted` | agent/settlement.go:186-212 | no call is both handed over and unstarted |
| `AgentRun.LastIsSettled` | agent/run.go:171-194 | an output a checkpoint can retain is settled, and all of its calls were handed over |
| `AgentRun.ValidateUnstartedCalls` | agent/settlement.go:186-212 | the loop accepts exactly calls of the output in increasing order |
| `AgentRun.RequireUniqueCallIds` | agent/settlement.go:97-106 | accepts exactly pairwise-distinct identities |
| `AgentRun.CallbackProtocol.SettlementFailure` | agent/run.go:158-169 | a settlement passes exactly when its output came from one accepted callback |
| `AgentRun.CallbackProtocol.Assemble` | agent/run.go:131-149 | a second attempt or a wrong identity never assembles |
| `ToolStream.StreamReassembles` | agent/tool_corr.go:13-116 | any list of distinct calls streamed one after another is reassembled exactly |
| `ToolStream.InterleavedReassembles` | agent/tool_corr.go:13-116 | any list of calls, opened at their positions and then continued by any multi-fragment events with anonymous positioned pieces, is reassembled exactly |
| `ToolStream.InterleavedApart` | agent/tool_corr.go:74-79 | such events leave each slot with exactly the pieces positioned at it, in order |
| `ToolStream.RepeatedIdentity` | agent/tool_corr.go:62-116 | a continuation repeating a known identity lands on that identity's slot, or conflicts at another position |
| `ToolStream.OtherWireConflicts` | agent/tool_corr.go:37-60 | a supplied wire type other than function is a conflict, for good |
| `ToolStream.CompletedIdsDistinct` | agent/tool_corr.go:13-35 | without a conflict the assembled calls have pairwise-distinct identities |
| `ToolStream.AllocationIsLowest` | agent/tool_corr.go:97-108 | a new slot is always the lowest unclaimed one of the stream |
| `ToolStream.Assembler.CorrelateToolFragment` | agent/tool_corr.go:62-116 | the slot a fragment lands in, branch by branch: by identity, by position, by anonymous position in a multi-fragment event, by the last slot, or a new lowest one |
| `ToolStream.Assembler.ApplyToolEvent` | agent/tool_corr.go:13-60 | the event loop computes the specified assembly |
| `ToolStream.BuildCalls` | agent/message_build.go:10-35 | the calls of the complete slots in position order |
| `Walkthrough.ARunSucceeds` | harness/effect.go:228-345 | witness on literal input: a run of one called tool reaches success |
| `Walkthrough.CrashIsUnknown` | harness/effect.go:985-1019 | witness on literal input: a crash after the execution began is recovered as unknown |

## Left out

- JSON text, base64 framing, timestamps, SQLite, the storage codec and every adopted deep copy.
- Re-materialisation after a race and the corruption latch: a raced or corrupt transaction is only reported.
- Message, output and request validation of the model package beyond the rules the loop relies on; tool names, arguments, metadata, output shaping and permission decisions.
- Evidence prompts, added messages and tool names, and the checks of evidence names against the captured catalog.
- The Session identity inside entry references; a log holds one Session.
- Overflow in the driver's steps, whose totals are unbounded integers; the transactions of `SessionStore` abort on it. Cost rates and sums are reals without rounding.
- Context measurement, strategy state and plan kinds beyond none, model and checkpoint; context windows.
- Provider streams, HTTP, retry delays, content parts and the finish-reason matrix of the assembler.
- Observer facts, local revisions, launching child Sessions and Jobs, Session deletion and sweeping in the durable store.
- Waiting and fairness: of progress it is stated only that forks and recoveries go through and that no running Operation is ever stuck.
- Driver.CheckpointNext: takes any messages that pair with the kept tail; the resolution of proposed items is proved apart, in `Pairing`.
- Estimate.KnownEstimateIsComplete: speaks of at least one durable producer for each committed intent; that there is exactly one is `Charges.KnownEstimateChargesOnce`.
- Interrupts.InterruptedNeverSucceeds: allows a success the source would also refuse because its background group is closed, so the source admits fewer runs.
- SessionStore.Store.PublishAdmission: does not cover an identity already used in another Session, since one store holds one Session.
- SessionStore.Store.DeliverClosedCompletion: does not record the related member's kind and identity, which no later step reads.
- Background.EveryInterleaving: treats the launched children's own Sessions as moving arbitrarily; the sections of a delivery are steps of a state machine, and single sections are methods.
