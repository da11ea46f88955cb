# The session engine of acp-unreal, in Dafny

`acp-unreal` is an ACP agent that hosts a coordinator library inside one long-lived process. The
library has no idle callback and no "cancel this turn but keep running" control, so the agent
rebuilds both around it: a mirror of the coordinator's scheduling folded from persisted items, a
gate in front of the provider, a decorator in front of the operation manager, and a turn engine
whose actor, client calls, timers and coordinator meet at four mutexes. This project models that
machinery and proves what it guarantees over every run.

## How the model is built

| file | what it holds |
|---|---|
| `Harness.dfy` | the library's values: items, operations, responses, statuses |
| `Mirrors.dfy`, `MirrorLog.dfy`, `Coordinators.dfy` | the scheduling mirror; what its answer says about a log; its agreement with a coordinator it cannot see |
| `Gates.dfy`, `GateRuns.dfy`, `GateReplies.dfy` | parking, muting and cancelling of model requests; partial text over whole runs; what every request is answered with, and which are muted |
| `Ops.dfy`, `OpsRuns.dfy` | the operation manager decorator; its interleavings |
| `Projection.dfy`, `SessionSteps.dfy`, `Runtimes.dfy` | which update a status becomes; each locked section and actor event of the runtime as a function on its state; the runtime as a class whose methods are proved equal to those functions |
| `SessionRuns.dfy` | one session under every interleaving of client, actor, timers, coordinator, requests and operations |
| `Replicas.dfy`, `Answers.dfy`, `LateCancels.dfy`, `Outcomes.dfy`, `NormalEnd.dfy` | properties of all those runs: the two mirrors, answers, the two sections of a cancel, errors, what an answer by itself implies |
| `Prompts.dfy`, `Endings.dfy` | that a prompt starts afresh, that a turn ends when it can, and that the actor never sleeps over work |
| `CancelSafety.dfy`, `CancelLimits.dfy`, `Restarts.dfy`, `CancelledWork.dfy`, `Approvals.dfy` | what an abort, a restart and a permission keep from happening |
| `ToolCalls.dfy`, `ToolUpdates.dfy`, `FinalUpdates.dfy`, `Progress.dfy`, `AbortBound.dfy` | the updates the client sees, in which order and for what, and that an abort comes to its end |
| `Taps.dfy`, `Texts.dfy`, `Fifo.dfy` | SSE framing, UTF-8 text splitting, the wake-up queue |
| `Sessions.dfy` | the lock-then-create protocol by which processes open sessions |

Objects the source updates in place are classes (`Mirror`, `Gate`, `Manager`, `Runtime`, `SseTee`,
`Queue`, `Disk`, `Agent`). Each method's postcondition equates the new state with a function of the
old one; the properties are proved about runs of those functions.

## Modelling assumptions

Steps are what one lock protects, or what the source needs to be one:

- appending a turn item and entering `Respond` is one step of the coordinator, and its `Respond`
  calls do not overlap (the gate's epilogue clears the request in flight without looking);
- `abortTurn`, from its flag through the gate's `CancelInflight`, is one step, its read of the
  mirror included; each of its calls of `ops.Cancel` is a step of its own, and so is its end, which
  wakes the actor and starts the grace timer. Anything may come in between, except that an abort
  the actor runs keeps the actor busy. `CancelTurn`'s flag is a separate step before all of it;
- `observe`, `send`, `emit`, and `Held` with `Decide` inside `ops.Cancel` are one step each; a
  forward registers its time limit in the step the inner manager accepts it (an end reported in
  between would leave a timer behind);
- `handle` is one step, but for the abort it may lead to, and `evaluate` comes next; submissions
  that `evaluate`, `Prompt` and `Steer` make after unlocking are steps of their own, and so is what
  the decorator does after unlocking;
- on a model error, noting the error, reading what is outstanding and the locked section of the
  abort are one step, though the source releases the lock between them; a time limit cancels and
  arms its kill timer in one step, and the kill timer checks its registration and kills in one step,
  though the source cancels before it takes the lock and kills after it released it.

The coordinator is an environment. It persists its inbox in order and appends any item whose names
are known. It starts a request when none is in flight and something waits for one or the newest
turn is unanswered, as a restore leaves it. It may die at any time, and a submission to the inbox
of a coordinator that died is lost. Turn, call and input ids are new when made; a status is about a
call some response made; an operation belongs to one call; there are no heartbeats, which the
runtime turns off. Observers run before an append returns. Timers may fire at any later time. A
request that supersedes another carries what was waiting when it began, as the mirror's package
comment has it, and not what the superseded one carried. Identifiers are numbers, with 0 for Go's
empty string; a turn is known by its position in the list of all turns, which stands for the
pointer the source compares. The order of a map iteration is a parameter, and statements hold for
every order.

## What turned out false, and when exactly

The code is modelled as it is. Where it does less than its documentation says or than one would
expect, that is proved too, with the exact condition where there is one:

- "No tokens are spent after a cancel until the next prompt" holds exactly when every submission
  under way is the cancelled turn's own, already recorded, or parked. A prompt that stalls between
  its locked section and the inbox while its turn is answered escapes the cancel of the next turn.
- A cancelled operation that has not started can still start, at any point up to the next prompt,
  if and only if it is still held, since an approval may arrive before its cancellation runs, or its
  start was decided, or the decorator has never seen it and it is added as restored, already under
  way, which no policy looks at. Once its own cancellation has run, holding is no longer among these.
- Opening a log answers nothing old exactly when the log leaves something to answer or a running
  call, or its newest turn is answered. A process that died with its request in flight, and nothing
  else to do, leaves a log of the other kind: nothing is parked, and the coordinator's first wake
  asks the provider again.
- The mirror says "quiescent" exactly when the coordinator is idle but for operations no running
  call waits for. A call reported as failed can leave such an operation running, and so can a fork.
  The two agree as long as every step is careful, which is spelled out per step and exact.
- `CancelTurn` sets its flag and aborts in two sections. The abort hits the flagged turn exactly
  when that is still current and nobody aborted it since; otherwise it hits whatever other turn is
  current, which is then answered with an error unless its own client cancels it as well.
- An interrupting steer refused because no generation runs is still recorded as unobserved, and
  its turn can no longer end by itself. A refused steer leaves no trace exactly when no turn could
  take one. A steer lost with its coordinator strands its turn as well.
- A later `reject_always` never undoes an `allow_always`.
- A repeated `Add` reads the snapshot it repeats before it emits it. If the operation ends in
  between, the decorator forgets that it ended. Short of that, a terminal snapshot is kept for good.
- The queue loses wake-ups with two or more consumers. It is used with one.
- `SplitText` keeps runes whole exactly for limits of 4 and more (or no limit).
- In any event stream a frame is closed exactly by the first empty line (section 9.2.5 of the WHATWG
  HTML standard, for LF and CRLF line ends) that is neither a CRLF after a bare LF nor the very
  first line. Lone CR line ends, which the standard knows as well, close nothing.
- A stopped answer is the text of the newest attempt exactly when that attempt streamed nothing
  before a text of another attempt of the same request, as attempts numbered upwards do not.

## Model

| member | source | states |
|---|---|---|
| `Mirrors.FoldSplits` | internal/runtime/runtime.go:288-305 | Folding history in two parts gives the mirror of the whole log, so paging, queueing and restarting lose nothing |
| `Mirrors.StatusTerminal` | internal/mirror/mirror.go:107-118 | The map and the scan say "terminal" exactly when every operation waited for has ended by its last snapshot; a missing one has not |
| `Mirrors.Mirror.Apply` | internal/mirror/mirror.go:54-104 | One item changes the whole mirror as the specification's fold step does, for every kind of item |
| `Mirrors.Mirror.StartAll` | internal/mirror/mirror.go:83-89 | The loop over a response's outputs starts exactly its tool calls |
| `Mirrors.Mirror.Calls` | internal/mirror/mirror.go:163-176 | The list holds exactly the calls that run or whose result waits for the next request, in whatever map order |
| `MirrorLog.PendingCountsReasons` | internal/mirror/mirror.go:54-104 | The pending counter equals the number of reasons in every log's mirror |
| `MirrorLog.LastTurnIsNewest` | internal/mirror/mirror.go:70-76 | The mirror's last turn is the newest turn item of the log |
| `MirrorLog.InflightMeansUnanswered` | internal/mirror/mirror.go:77-82 | A request counts as in flight iff no accepted response follows the newest turn; superseded responses never count |
| `MirrorLog.OutstandingMeansOpen` | internal/mirror/mirror.go:83-102 | A call is outstanding iff an accepted response asked for it and nothing settled it since |
| `MirrorLog.ReasonsAreWakes` | internal/mirror/mirror.go:58-76 | The reasons are exactly what woke the model after the newest turn |
| `MirrorLog.QuiescentMeansIdle` | internal/mirror/mirror.go:45-51 | For every log: quiescent iff the newest turn is answered, nothing woke the model since, and every accepted call is settled |
| `Coordinators.TableReportsStatus` | internal/mirror/mirror.go:106-118 | The snapshots persisted with a status report each operation as the live table does |
| `Coordinators.StatusAgreesWithTable` | internal/mirror/mirror.go:96-100 | A persisted status ends its call exactly when the coordinator's live operation table says so |
| `Coordinators.StepAgrees` | internal/mirror/mirror.go:4-11 | Every step of the coordinator keeps the mirror of what it persisted in agreement with it |
| `Coordinators.MirrorSimulatesCoordinator` | internal/mirror/mirror.go:1-11 | After every run the fold of the persisted items is quiescent iff the coordinator is idle but for operations no running call waits for; it is idle iff the fold is quiescent and there are none; and both carry the same request, reasons and calls, given that a superseding request carries what waits |
| `Coordinators.CarefulStepsKeepNoOrphans` | internal/mirror/mirror.go:9-11 | Which steps keep every running operation waited for, step by step and exactly |
| `Coordinators.QuiescentMeansIdleInCarefulRuns` | internal/mirror/mirror.go:9-11 | In runs of such steps quiescent means idle, no nonterminal operations included, and conversely |
| `Coordinators.FailedCallOrphansItsOperation` | internal/mirror/mirror.go:96-100 | A run whose only careless step reports a waiting call as failed ends with a quiescent mirror over a coordinator that is not idle |
| `Gates.Gate.ObserveDelta` | internal/gate/gate.go:146-161 | Text appends to its own attempt or starts a newer one; nothing else touches text |
| `Gates.Gate.AllParkedLocked` | internal/gate/gate.go:163-180 | True iff every reason is a parked call or input |
| `Gates.Gate.RespondEnd` | internal/gate/gate.go:221-271 | The four outcomes in the source's order, with their ids, texts and records; only the caller's own context surfaces as an error |
| `GateRuns.InflightKeeps` | internal/gate/gate.go:146-161 | In every run, however attempts are numbered, the request in flight has on record all of its newest text-bearing attempt but what came before a text of another attempt |
| `GateRuns.StoppedAnswerIsExactlyUninterrupted` | internal/gate/gate.go:221-256 | A stopped request answers exactly the text of its newest text-bearing attempt iff that attempt streamed nothing before a text of another attempt of the request, whatever interleaves |
| `GateRuns.StoppedAnswerIsExact` | internal/gate/gate.go:221-256 | With attempts of the request numbered upwards the answer is always exact |
| `GateRuns.ResumedAttemptLosesText` | internal/gate/gate.go:150-155 | A run with a resumed attempt that answers less than the attempt streamed |
| `GateRuns.StopMarks` | internal/gate/gate.go:112-121 | In every run the stop mark is on the request in flight iff a cancel came since that request began |
| `GateReplies.RepliesExactly` | internal/gate/gate.go:221-271 | In every run, what each request is answered with: nothing if its own context ended; else with the outcome cancelled iff a cancel came since it began, and otherwise errored iff it failed; a request that came through keeps the provider's output and stop reason; the id is the provider's, else the newest streamed for this request, else a made-up one; and the answer is filed under that id with its outcome and the model newest reported |
| `GateReplies.MutedExactly` | internal/gate/gate.go:186-211 | In every run a request is muted, and costs no provider call, iff something was parked since the last request that reached the provider and each of its reasons was; muted, it answers an empty completed response and leaves nothing in flight |
| `Ops.Manager.Add` | internal/ops/ops.go:109-143 | Held stays held; known is repeated; new is forwarded, denied or held by the policy's verdict |
| `Ops.Manager.Decide` | internal/ops/ops.go:180-197 | A held operation is released once: forwarded, or answered canceled; a refused forward is answered failed |
| `Ops.Manager.Cancel` | internal/ops/ops.go:207-219 | Held is answered, ended is left alone, anything else is passed on |
| `OpsRuns.UniqueFate` | internal/ops/ops.go:109-219 | In every interleaving an id reaches the inner manager at most once, is asked about at most once, is answered by the decorator at most once, and never both held or answered and accepted |
| `OpsRuns.SettledForGood` | internal/ops/ops.go:180-197 | An answer or an acceptance is never taken back |
| `OpsRuns.DeniedNeverStarts` | README.md:146-147 | An operation rejected, denied or cancelled while held never reaches the inner manager afterwards |
| `OpsRuns.EndedIsOver` | internal/ops/ops.go:180-219 | In every run an operation that ended or was answered, and whose newest snapshot says so, has nothing left that could start it |
| `OpsRuns.TerminalSurvivesExactly` | internal/ops/ops.go:109-119 | In every run, such a terminal snapshot survives whatever follows iff no repetition of an older live snapshot is under way |
| `OpsRuns.ReAddRepeatsTerminal` | internal/ops/ops.go:13-18 | A new generation that adds an ended operation again is sent its terminal snapshot again, and the inner manager is not asked |
| `OpsRuns.StaleRepeatForgetsTheEnd` | internal/ops/ops.go:115-118 | The race: whenever a running operation is added again, a run exists that ends with its live snapshot remembered after it ended |
| `OpsRuns.KillSparesTheEnded` | internal/ops/ops.go:162-171 | No time limit kills an operation that ended or never started, in any run |
| `OpsRuns.OverdueIsCancelledThenKilled` | internal/ops/ops.go:145-176 | In every run that adds nothing already ended, a limit stands for an accepted operation iff it has not ended and was not killed; when it fires the operation is cancelled, and killed when the kill timer still finds it running |
| `OpsRuns.DecisionsAreCarriedOut` | internal/ops/ops.go:178-197 | From every state, deciding on a held operation and then doing what is left ends with it at the inner manager iff it was allowed and accepted there, and otherwise with one queued snapshot, failed or canceled, with the reason given |
| `OpsRuns.DeliveredInOrder` | internal/ops/ops.go:228-261 | Delivered followed by queued is always what Tap saw, in order |
| `Projection.Terminal` | internal/project/project.go:169-186 | The projector's own loops call a status final exactly when the mirror does |
| `Runtimes.Runtime.IndexCalls` | internal/runtime/runtime.go:316-326 | Learns every tool call of a response and, after a cancel, refuses and parks each |
| `Runtimes.Runtime.IndexOperations` | internal/runtime/runtime.go:327-331 | Files each operation of a status under its call |
| `Runtimes.Runtime.Observe` | internal/runtime/runtime.go:337-346 | One append updates mirror, lookups and gate and posts the item, and nothing else |
| `Runtimes.Runtime.Seed` | internal/runtime/runtime.go:286-305 | Pages of any size give both mirrors and the lookups of one fold of the whole log |
| `Runtimes.Runtime.Open` | internal/runtime/runtime.go:215-268 | A runtime opened on a log starts in exactly the state the runs start from |
| `Runtimes.Runtime.DecidePolicy` | internal/runtime/runtime.go:368-387 | The verdict in every case: cancelled call, non-shell, mode, standing choices, list |
| `Runtimes.Runtime.CancelOperations` | internal/runtime/runtime.go:631-637 | The nested loops cancel exactly the operations running calls wait for, in any map order |
| `Runtimes.Runtime.AbortTurn` | internal/runtime/runtime.go:603-640 | The whole abort, and nothing at all without a running turn or a second time |
| `Runtimes.Runtime.CancelTurn` | internal/runtime/runtime.go:590-601 | The client's flag, then the abort |
| `Runtimes.Runtime.Steer` | internal/runtime/runtime.go:681-706 | Refused, queued or interrupting, and what each leaves behind |
| `Runtimes.Runtime.ProjectLive` | internal/runtime/runtime.go:960-998 | A response announces its calls in order; a final status is reported once |
| `Runtimes.Runtime.FailUnreported` | internal/runtime/runtime.go:786-792 | A failed update for each call not yet reported, announced first |
| `Runtimes.Runtime.HandleFlush` | internal/runtime/runtime.go:774-793 | The flush empties the wait and reports exactly the calls waited for |
| `Runtimes.Runtime.Handle` | internal/runtime/runtime.go:719-794 | Every event on the whole state, for some order of the map iterations |
| `Runtimes.Runtime.Evaluate` | internal/runtime/runtime.go:839-874 | The close rule on the whole state and the steers left to submit |
| `Replicas.StepReplicated` | internal/runtime/runtime.go:337-346 | Every step keeps both mirrors folds of the log with the queue exactly between them |
| `Replicas.ReplicasAgree` | internal/runtime/runtime.go:719-724 | In every run the mirror the gate reads is the actor's mirror with the queued items applied, and reopening the log gives it again |
| `SessionRuns.UndisturbedAbort` | internal/runtime/runtime.go:603-640 | With nothing in between, the steps of an abort do exactly what the method called as a whole does |
| `Answers.OneAnswerPerTurn` | internal/runtime/runtime.go:557-588 | Every turn has one answer once finished and none before, the current turn is unfinished, and an answer is `cancelled`, never an error, iff the client's flag was set |
| `Answers.CancelledMeansClient` | README.md:166-170 | `cancelled` is reserved for the client; any other abort is an error |
| `Answers.FinishedTurnsAreHistory` | internal/runtime/runtime.go:578-588 | Nothing later changes a finished turn, its flag or its answer |
| `LateCancels.LateAbortHits` | internal/runtime/runtime.go:594-640 | The abort of a cancel, after any run since its flag, other cancels included, aborts the flagged turn iff that is still current and not aborted meanwhile; any other turn iff that is current and abortable; a flagged turn no longer current has been answered once |
| `LateCancels.LateAbortBlames` | internal/runtime/runtime.go:594-640 | A turn hit in its place began after the flag, and in every continuation it is answered, if at all, with an error iff its own client has not cancelled it |
| `LateCancels.LateAbortFailsNextPrompt` | internal/runtime/runtime.go:594-601 | A run from a new session in which the second prompt is answered with an error for the cancel of the first |
| `Outcomes.DoneReasonIsNewest` | internal/runtime/runtime.go:817-822 | A turn that ends by itself answers max_tokens or refusal iff the newest response the actor saw that did not just complete stopped for it, and end_turn when there is none |
| `Outcomes.StopIsNewest` | internal/runtime/runtime.go:817-822 | In every run the stop reason on record for a turn is that of the newest response seen since its prompt that did not just complete, and there is none iff there is no such response |
| `Outcomes.ProviderErrorSurfaces` | README.md:166-170 | A provider error handled while a turn runs makes that turn's answer an error in every continuation, unless its client cancelled it |
| `Outcomes.CoordinatorFailureAnswers` | internal/runtime/runtime.go:746-759 | Handling a failed exit answers the current turn, with the failure unless its client cancelled it |
| `Outcomes.ProviderErrorAbortsExactly` | internal/runtime/runtime.go:735-745 | In every run a provider error is noted on the current turn and aborts it iff some call in the whole log is still open; the abort the actor then runs covers exactly the operations of those calls |
| `Outcomes.FailedSubmissionAnswers` | internal/runtime/runtime.go:535-547 | In every run a prompt that cannot be submitted is answered so, once, or cancelled if its client did, iff its turn is the current one; an answered turn stays as it is |
| `Outcomes.FailedRequestsAreReported` | internal/gate/gate.go:257-261 | The actor hears of a request iff it failed and was neither stopped nor given up |
| `Outcomes.CleanExitAnswersNobody` | internal/runtime/runtime.go:746-762 | A coordinator that ends without a failure changes no turn |
| `Outcomes.OnlyTheseAnswer` | internal/runtime/runtime.go:576-592 | No step but an evaluation, a failed exit and a failed submission answers a prompt |
| `NormalEnd.StepBooks` | internal/runtime/runtime.go:685-706 | Every step keeps the account of inputs: none is in two places, and each of the current turn's is unobserved or seen |
| `NormalEnd.NormalEndIsSound` | internal/runtime/runtime.go:839-874 | When evaluate ends a turn nobody aborted, the items seen are idle, and its prompt and every steer it took were submitted exactly once, recorded and followed by a request |
| `NormalEnd.SteerIsTakenUp` | README.md:125-127 | A steer the turn took, queued or interrupting, is submitted exactly once and answered before the turn ends by itself |
| `NormalEnd.StrandedForGood` | internal/runtime/runtime.go:866-872 | A turn that waits for an input on its way nowhere never ends by itself |
| `NormalEnd.RefusedSteerStrandsItsTurn` | internal/runtime/runtime.go:692-705 | A refused interrupting steer leaves its turn such a turn |
| `NormalEnd.RefusalLeavesNoTraceWithoutATurn` | internal/runtime/runtime.go:685-704 | A refused steer leaves the session unchanged iff no turn could take one |
| `NormalEnd.LostSteerStrandsItsTurn` | internal/runtime/runtime.go:700-706 | A steer taken for a generation whose coordinator is gone strands its turn too |
| `NormalEnd.ExitStrands` | internal/runtime/runtime.go:746-762 | A coordinator that ends strands the turn that waits for an input in its inbox or on the way there |
| `NormalEnd.EarlySteerIsRefused` | internal/runtime/runtime.go:700-704 | Such a steer is one step from a new session |
| `Prompts.RedeliveryIsAcknowledged` | internal/runtime/runtime.go:523-532 | In every run a prompt starts a turn of its own, which waits for it and can be submitted, iff the log does not have it; a redelivered one changes nothing |
| `Prompts.PromptStartsAfresh` | internal/runtime/runtime.go:529-533 | In every run from a new prompt, while its turn is the newest and not aborted, no call is refused, neither the prompt nor a call it asked for is parked, and a new operation that needs no approval is on its way to the inner manager, whatever was cancelled before |
| `Prompts.PromptReachesTheModel` | internal/gate/gate.go:193-211 | In such a run the next request with the prompt, or with a result of a call it asked for, goes to the provider |
| `Endings.WaitsExactlyForTheUnseen` | internal/runtime/runtime.go:796-806 | In every run the current turn waits for an input it took iff the log as the actor has seen it does not have it |
| `Endings.WaitsOnlyForTheUnended` | internal/runtime/runtime.go:823-827 | In every run no call the current turn waits for has ended by the log the actor has seen |
| `Endings.EvaluateDoesWhatIsDue` | internal/runtime/runtime.go:839-874 | In every run, by the log alone: evaluate answers the current turn, once, with the answer its record calls for, iff an aborted one waits for no call and its newest request is answered or flushed, or any other finds the log idle, its inputs recorded and no steer queued; else it hands on all queued steers iff no request is unanswered and a generation is there; else it leaves the session as it is |
| `Endings.PromptIsAnswered` | internal/runtime/runtime.go:866-872 | In every run from a prompt, once its items are idle, its inputs recorded and no steer waits, the next evaluation answers that prompt: cancelled if its client did, else the error on record, else the reason of the newest response since the prompt that did not just complete, and end_turn iff there is none |
| `Endings.ActorNeverSleepsOverWork` | internal/runtime/runtime.go:708-717 | In every run, when the actor rests over an empty queue with nothing on its way to the log and no abort under way, the current turn cannot be answered by the whole log and no steer that could be handed on waits |
| `Endings.SteerIsAdmitted` | internal/runtime/runtime.go:685-706 | A steer is refused iff no turn can take one or it would interrupt and nobody runs; queued, it joins the turn's steers and wakes the actor; interrupting, it reaches the inbox of the generation if that still runs; either way the turn waits for it |
| `Endings.SteersReachTheInbox` | internal/runtime/runtime.go:856-865 | Steers handed on to a running generation all reach its inbox, in order, and the actor rests |
| `Endings.AbortDropsSteers` | internal/runtime/runtime.go:607-624 | A steer still queued when its turn is aborted is never recorded, in any run, prompts included |
| `Endings.PromptEndsTurn` | internal/runtime/runtime.go:866-872 | A run from a new session in which a prompt with any plain completed response is answered end_turn with that response on record |
| `CancelSafety.AbortMuzzles` | internal/runtime/runtime.go:607-630 | An abort whose turn owns all submissions under way parks everything a request could answer and stops the one in flight |
| `CancelSafety.MuzzledForGood` | internal/gate/gate.go:98-121 | From such a state no run short of a prompt makes a provider call |
| `CancelSafety.CancelIsFinal` | README.md:163-164 | In every run from any log, a covered abort is followed by no provider call until the next prompt |
| `CancelLimits.CancelIsFinalExactlyWhenCovered` | internal/runtime/runtime.go:607-630 | In every reachable state an abort is final iff every submission under way is the turn's own, recorded or parked |
| `CancelLimits.StalledPromptEscapes` | internal/runtime/runtime.go:530-545 | A stalled prompt leads to an uncovered abort of the next turn |
| `CancelLimits.SomeCancelIsNotFinal` | internal/runtime/runtime.go:530-545 | From a new session some run reaches an abort that is not final |
| `Restarts.RestartAnswersNothingOldExactly` | internal/runtime/runtime.go:258-264 | Reopening a log makes no provider call, in any run, prompts included, until something unparked is recorded, iff the log leaves something to answer or a running call, or its newest turn is answered |
| `Restarts.UnansweredTurnIsAskedAgain` | internal/runtime/runtime.go:258-264 | Over any other log a run with nothing new makes a provider call |
| `Restarts.InterruptedRequestIsRepeated` | internal/runtime/runtime.go:258-264 | An input and the turn that took it up are such a log |
| `Restarts.CancelAnswersNothingOld` | internal/gate/gate.go:8-12 | After any abort, covered or not, no run, prompts included, makes a provider call until an input that was not parked is recorded or a response brings new calls |
| `CancelledWork.CancelledWorkNeverStarts` | internal/runtime/runtime.go:607-637 | From the locked section of an abort to the next prompt no operation of a call outstanding at the abort, or asked for since, is held, decided on or accepted, unless it was at the abort or was restored as already under way |
| `CancelledWork.OnlyHeldOrDecidedStart` | internal/runtime/runtime.go:1047-1053 | At every point from there to the next prompt an operation of a cancelled call that has not started can still start iff it is held or its start was decided, in runs that do not restore it; in all runs, iff one of these holds or the decorator has never seen it |
| `CancelledWork.CancelledStartsOnlyIfDecided` | internal/ops/ops.go:180-219 | Once its own cancellation has run it can start iff its start was decided, in runs that do not restore it; in all runs, iff that holds or the decorator has never seen it |
| `CancelledWork.SpentNeverStarts` | internal/ops/ops.go:109-119 | An operation the decorator has seen, that is not held, not decided on and not accepted, never starts in any run, prompts and repeated additions included |
| `CancelledWork.AbortReachesAll` | README.md:155-156 | By the time an abort has none of its cancellations left, every operation a running call waited for was withdrawn and answered, found ended, or passed to the inner manager's Cancel, whatever came in between |
| `CancelledWork.AbortTellsWhy` | internal/runtime/runtime.go:644-649 | In every run, the shell command an abort withdraws first is answered canceled, with a note that names the user iff the client had cancelled the turn by then |
| `Approvals.NothingStartsUnlicensed` | internal/runtime/runtime.go:368-387 | In every run each operation the inner manager has was let through by the policy in some step that added it, or approved by the client while held, after a step that added it |
| `Approvals.ShellCommandsNeedApproval` | README.md:143 | An operation only ever added as a shell command of a session that asks starts only if the client approved it by name after it was added, whatever else the run does |
| `Approvals.NewOperationsAreJudged` | internal/runtime/runtime.go:368-387 | An operation added for the first time is on its way to the inner manager iff it needs no asking; it is held and the client asked iff it needs asking, its call is not cancelled and no rejection stands; and otherwise its answer as canceled is on its way |
| `Approvals.OnlyPermitChooses` | internal/runtime/runtime.go:1047-1059 | The standing approval and the standing rejection are each set iff the client answered a permission request so, in this step or before |
| `Approvals.RejectAlwaysNeverUndoesAllowAlways` | internal/runtime/runtime.go:374-382 | After allow_always no later answer makes the policy ask or deny again, cancelled calls excepted |
| `ToolCalls.EveryCallHasAProperStory` | README.md:134-136 | In every run each call's updates are one pending tool_call, then at most one in_progress, then at most one final update, then nothing |
| `ToolUpdates.LookupsKnowTheLog` | internal/runtime/runtime.go:309-333 | In every run the calls of all responses on record are known, and each operation of each status on record is filed under its call |
| `ToolUpdates.CallsAreAnnounced` | internal/runtime/runtime.go:960-985 | In every run, handling a response shows every call it asks for as pending |
| `ToolUpdates.OperationsAreShown` | internal/runtime/runtime.go:1000-1013 | In every run, an operation that is seen waiting shows its call in progress and one that is asked about shows its call pending, unless the call had its final update |
| `ToolUpdates.ResultsAreShown` | internal/project/project.go:189-235 | In every run, handling a status that ends a call sends its result last, failed iff the status has an error or one of its operations failed or was canceled, unless the call had its final update; a status that ends nothing shows nothing |
| `ToolUpdates.FlushedCallsAreShown` | internal/runtime/runtime.go:775-793 | In every run, the flush shows each call still waited for and not yet finished as failed, by the client iff its flag is set |
| `ToolUpdates.OtherEventsShowNothing` | internal/runtime/runtime.go:719-793 | No other event shows anything of a tool call |
| `ToolUpdates.SnapshotsArePosted` | internal/runtime/runtime.go:413-426 | No step of any run shows Tap a snapshot without posting it to the actor, and each the inner manager reports is posted |
| `AbortBound.AbortIsNeverForgotten` | internal/runtime/runtime.go:763-793 | An aborted, unanswered turn always has its cancellations, grace or flush under way, or its answer comes with the next evaluation |
| `AbortBound.StageNeverGoesBack` | internal/runtime/runtime.go:763-793 | No step of any run takes an abort back to an earlier of its six stages |
| `AbortBound.AbortIsAnsweredWithin` | internal/runtime/runtime.go:763-793 | From every reachable state with an aborted turn, every run of the actor, the aborts and the timers alone is at most a stated number of steps long, in whatever order they come, and once they have nothing left to do the turn is answered |
| `AbortBound.FlushAnswers` | internal/runtime/runtime.go:848-854 | After the flush event of an aborted turn the next evaluation answers it at the latest, whatever happens in between |
| `FinalUpdates.AnswerFollowsFinalUpdates` | internal/runtime/runtime.go:823-827 | When evaluate answers an aborted turn, every call it ever waited for has its final update in what was sent |
| `FinalUpdates.CancelledCallsAreReported` | internal/runtime/runtime.go:607-642 | Every call open by the log when a turn is aborted has its final update in what was sent by the time evaluate answers that turn, in every run |
| `Taps.FrameEnd` | internal/tap/tap.go:115-126 | A frame's end and its terminator lie inside the buffer |
| `Taps.FrameEndIsStable` | internal/tap/tap.go:115-126 | The match that starts first also completes first: bytes that arrive later never move a frame's end |
| `Taps.SseTee.Drain` | internal/tap/tap.go:100-107 | The inner loop emits all complete frames of the buffer and keeps the rest |
| `Taps.SseTee.Read` | internal/tap/tap.go:96-113 | A read passes its bytes through unchanged, emits what they complete, and drops an oversized residue |
| `Taps.FramesSplit` | internal/tap/tap.go:96-113 | Framing in two parts with the residue carried over is framing the whole |
| `Taps.ChunkIndependence` | internal/tap/tap.go:96-113 | However a stream is cut into reads, the frames are those of the whole stream, while the residue fits the buffer |
| `Taps.MebibyteIsKept` | internal/tap/tap.go:94-113 | As long as no read leaves more than 1024 * 1024 bytes unframed, the frames and what is kept are those of the whole stream, however it is cut |
| `Taps.OversizedResidueIsDropped` | internal/tap/tap.go:106-112 | One read that leaves more loses just that, and none of the frames it completed |
| `Taps.BufferStaysBounded` | internal/tap/tap.go:94-113 | Between reads never more than 1024 * 1024 bytes are kept, whatever arrives |
| `Taps.FramesMeanBlankLines` | internal/tap/tap.go:115-126 | Searching for the earliest match frames every stream as closing a frame at the first completed blank line does |
| `Taps.FramesCloseAtEmptyLines` | internal/tap/tap.go:115-126 | Every frame is closed by an empty line of the standard, never the very first line and never a CRLF after a bare LF |
| `Taps.FrameClosesExactly` | internal/tap/tap.go:115-126 | In every stream, lone carriage returns included, a frame is closed at a line end iff that completes the first empty line that is neither the very first line nor a CRLF after a bare LF |
| `Taps.FirstEmptyLineCloses` | internal/tap/tap.go:115-126 | So the first empty line of all closes a frame iff it is none of these two |
| `Taps.UniformLineEndsClose` | internal/tap/tap.go:115-126 | With one kind of line end throughout, the first empty line after the first line always does |
| `Taps.LoneCrsCloseNothing` | internal/tap/tap.go:115-126 | Line ends of lone carriage returns close no frame |
| `Texts.CutValid` | internal/project/project.go:52-54 | Valid text cut at k leaves two valid parts iff a rune starts at k |
| `Texts.FindCut` | internal/project/project.go:51-57 | The inner loop finds a boundary at most three bytes before the limit |
| `Texts.SplitText` | internal/project/project.go:45-62 | The parts concatenate to the text, none is empty, too long or needlessly short, and valid text is cut between runes when the limit is at least 4 |
| `Texts.SmallLimitsBreakRunes` | internal/project/project.go:45-62 | For limits 1 to 3 no splitting at all keeps a four-byte rune valid |
| `Texts.KeepHead` | internal/project/project.go:32-35 | The longest valid prefix within half the limit, at most three bytes short for valid text |
| `Texts.KeepTail` | internal/project/project.go:36-39 | The longest valid suffix within half the limit, at most three bytes short for valid text |
| `Texts.BoundText` | internal/project/project.go:27-41 | Whole within the limit; otherwise a true prefix and suffix totalling at most the limit, both valid and both longest, with the exact count of what is left out |
| `Fifo.Queue.Push` | internal/fifo/fifo.go:24-32 | Appends and leaves the signal raised |
| `Fifo.Queue.TryPop` | internal/fifo/fifo.go:35-54 | Takes the oldest item without touching the signal, or lowers the signal over an empty queue |
| `Fifo.FirstInFirstOut` | internal/fifo/fifo.go:23-54 | Popped followed by stored is what was pushed, for any number of producers and consumers |
| `Fifo.NoLostWakeupExactly` | internal/fifo/fifo.go:23-54 | A sleeper over a non-empty queue always has a signal waiting or on its way, in all runs, iff there is at most one consumer |
| `Fifo.SleeperIsServed` | internal/fifo/fifo.go:34-54 | A lone sleeper over a non-empty queue gets its oldest item within three steps |
| `Fifo.TwoSleepersStarve` | internal/fifo/fifo.go:28-31 | With two consumers a run ends with one asleep over an item |
| `Sessions.Disk.AcquireLock` | internal/runtime/state.go:106-126 | Succeeds iff the lock is free |
| `Sessions.Disk.Release` | internal/runtime/state.go:128-136 | Frees only the holder's own lock, any number of times |
| `Sessions.Agent.Open` | internal/acpagent/agent.go:195-257 | Opening succeeds, with a registered handle that holds the lock of an existing log, iff the process has the session already and is not to create it, or the lock is free, the mode suits the presence of the log, and the library's own steps succeed; every other case names its refusal, leaves the locks as they were, and no existing log ever changes |
| `Sessions.Agent.CloseSession` | internal/acpagent/agent.go:416-426 | Forgets the runtime and frees exactly its lock |
| `Sessions.FreeSessionOpens` | internal/acpagent/agent.go:205-257 | From every state of every run, a call for a session nobody holds, in a mode that suits the presence of its log, comes to a live registered runtime that holds the lock, over the log that was there or a new one |
| `Sessions.StepKeepsConsistent` | internal/acpagent/agent.go:195-257 | Every step of every process keeps locks, calls, maps and logs in agreement |
| `Sessions.OneHolder` | internal/acpagent/agent.go:205-213 | However processes open, close and crash, one call at most is past a session's lock |
| `Sessions.OneWriter` | internal/runtime/state.go:102-104 | At most one runtime can write a session's log |
| `Sessions.RegisterIsFirst` | internal/acpagent/agent.go:253-255 | A process never registers a second runtime over a first |
| `Sessions.LogsOnlyGrow` | internal/acpagent/agent.go:227-231 | Create never runs on an existing log: no step of any run replaces or shortens one |
| `Sessions.CheckWithoutLockLosesALog` | internal/acpagent/agent.go:214-231 | With a lock that always succeeds, a run of two processes from nothing loses a log that was written |

## Left out

- JSON, HTTP, the decoding of an SSE frame into deltas, the provider adapter: encodings of the library; deltas, items and responses are datatypes here
- The text of a tool result, the argument bounds and the redaction of the state directory: they depend on JSON escaping and on tool translators
- Live message, thought and usage updates and their message ids: queued deltas are dropped once a newer request starts, so streamed text is not claimed to equal persisted text
- Token sums and the served model in an answer: sums that no other property uses
- The replay for session/load: the tool-call lifecycle is about the live connection
- Close, shutdown and their budgets, process groups, SIGKILL, the sweep of detached descendants: operating-system plumbing in real time
- Durations: every timer may fire at any later time, so the grace and flush delays are bounded in steps only; the ten seconds Prompt waits for a running turn is the wait itself
- `allowlisted` and permission timeouts: whether a command is on the list is a field of the operation, and a timeout is a rejection
- Session metadata, configuration options, list paging, prompt flattening, Initialize: settled by a short reading
- Model and effort of a request, and the raw output of a result: looked up and passed on
- Runtimes.Runtime.ProjectLive: only what it sends of tool calls; message, thought and usage updates are not modelled
- Runtimes.Runtime.Handle: the permission request the source starts in a goroutine is a later step of the runs, which may answer at any time
- Ops.Manager.Add: the text of the reasons beyond the terminal error is not modelled, and one call performs what the interleavings split in two
- Redelivery of a prompt whose first delivery was taken but never recorded: input ids are new when made, so the inbox's own deduplication never matters
