# Shot-preview pipeline: verified model

A Dafny model of the durable task runner behind the shot-preview service, of the components it composes with, and
proofs about them. A *task* is a persisted DAG of *nodes*. API calls (submit, cancel, retry, recover, confirm, adjust)
and one worker per task with one executor per started node change it, each in a critical section; a crash drops
everything but the persisted task. Human confirmation parks an executor on a channel. Beside the runner the project
models the workflow validator, the in-memory repository with its idempotency index, the concrete 13-node workflow and
its input builders, the bounded asset fan-out, the tool guard and the idempotency ledger, the render-job manager, and
the Thrift codec of the task view.

`dafny verify dfyconfig.toml` checks everything (Dafny 4.11).

## How it is laid out

| file | what it holds |
|---|---|
| `Types.dfy` | the persisted values, statuses and errors |
| `TaskOps.dfy` | what each critical section does to a task, node by node |
| `TaskInvariant.dfy`, `Progress.dfy` | the invariant of a persisted task; scheduler progress and maximal failure |
| `System.dfy`, `SystemInvariant.dfy` | the interleaving state machine of one task, and its inductive invariant |
| `SystemResults.dfy`, `Scheduling.dfy`, `Confirmation.dfy` | theorems over whole runs |
| `Recovery.dfy`, `WorkBound.dfy`, `LateSteps.dfy` | runs through crashes, repository errors and recoveries: maximal failure, termination, late completions |
| `Witness.dfy` | schedules from a submission that show what the runner does not guarantee |
| `Validate.dfy` | `Workflow.Validate` with its depth-first search |
| `Repository.dfy`, `NodeLoops.dfy`, `Runner.dfy`, `Switchboard.dfy` | the objects: heap tasks and defensive copies, the loops of the critical sections, the runner's methods, and what it keeps under its mutex |
| `Contents.dfy`, `Provenance.dfy` | what each section stores, field by field; where outputs and inputs come from over whole runs |
| `Submissions.dfy` | idempotent submission over histories |
| `ShotPreview.dfy`, `Payloads.dfy`, `Gates.dfy` | the workflow and its input builders; what each builder hands over; what the human gate holds back |
| `FanOut.dfy` | the asset fan-out |
| `ToolGuard.dfy`, `Ledger.dfy` | tool limits and attempts, at-most-once execution |
| `Render.dfy`, `Fingerprints.dfy` | render jobs, and which submissions are taken for one |
| `Thrift.dfy`, `Codec.dfy`, `CodecResults.dfy`, `Views.dfy`, `CodecLoops.dfy`, `WireLayout.dfy` | the binary protocol, the struct codec, the four structs of the task view, and their bytes spelled out |

The runner appears twice on purpose. `TaskOps` gives every critical section as a function. The methods of
`Runner.Runner` do the work as the source does it - a defensive copy, loops that rewrite its node slice in place, one
update - and are proved equal to those functions (`Stored`: exactly that task changed, to exactly that value;
`Untouched`: nothing changed). `System` interleaves the same functions with the worker, the executors, the channels and
crashes, and every theorem about runs is about them. Slices are arrays, so that two tasks could share one: the
predicates `NodeIs` and `TaskIs` say what a heap value denotes and which arrays it reaches.

JSON text, timestamps, task IDs and fingerprints are opaque values; JSON validity and decoding, clock readings, fresh
IDs, the answers of agents and tools, and repository failures are parameters of the steps that ask for them.

## What turned out not to hold, and when it does

* A failed task gives up on nodes without a failed ancestor if a node was ready when `completeIfBlocked` took the lock
  (`Progress.FailureIsMaximal`, an equivalence; `Recovery.FailsOnlyBySettling` lifts it to every step of a run). It does
  not happen as long as no worker is started over nodes left running or waiting
  (`Recovery.FailureIsMaximalThroughCrashes`): not without a crash or a repository error, and not through any number of
  crashes that find no node waiting and are followed by `Recover` before the next submission
  (`Recovery.FailureIsMaximalWithRecovery`). Both ways in which it does happen are exhibited: a waiting node that a crash
  orphaned is confirmed too late (`Witness.ConfirmedTooLateInARun`), or a submission with the same key starts a worker
  before `Recover` has requeued (`Witness.StartedOverLeftoversGivesUpTooMuch`).
* Over a waiting node that a crash orphaned the new worker finds nothing ready and nothing to settle, and turns without
  a pause until someone confirms (`Witness.OrphanedWaitSpins`). `WorkBound.SpinsOnLeftovers` says exactly when a worker
  is back where it was; if no worker is started over leftovers, `WorkBound.WorkersTerminate` bounds its steps.
* A confirmation that runs to its end before the executor has created its channel is lost. `Confirmation.OpeningDecides`
  says exactly when; `Confirmation.ConfirmedBeforeListening` gives the schedule, and `Confirmation.LostIsForever` shows
  that nothing but a cancel or a crash mends it. A cancel does (`Confirmation.CancelFreesTheLost`).
* `setNodeWaitingConfirmation` has no guard, so a late executor can park a node of a cancelled task
  (`Witness.CancelledTaskGetsWaitingNode`); no other step writes to a cancelled task
  (`LateSteps.OnlyParkingTouchesCancelled`, an equivalence), and parking makes no node succeed or fail
  (`SystemResults.EndsAreFinal`).
* A `Recover` that found the task inactive can lock it after a new worker has started nodes. It then requeues or fails
  nodes whose executors live, and their completions are dropped (`Witness.LateRequeueDropsOutput`, without any crash).
  It takes a node away exactly when it meets an executor at work (`LateSteps.RequeueTakesAway`); otherwise no completion
  is lost (`LateSteps.NoCompletionIsLost`).
* The fan-out can report success with empty slots when its caller's context is cancelled
  (`FanOut.CancelledCallerGetsEmptySlots`). `FanOut.FullExactlyWhenDispatched` is the equivalence and
  `FanOut.RefinesSequentialMap` the guarantee without cancellation.
* A render cancelled before its `Submit` wrote "running" is revived and ends twice (`Render.OvertakenSubmitRevives`);
  jobs cancelled only by callers who know their ID end once (`Render.KnownJobsEndOnce`). Even a revived job never
  succeeds (`Render.OutcomesAreFinal`).
* Render fingerprints are run together without separators and collide. For one project and output two ranges share one
  exactly when the later first frame is the earlier one followed by digits that lead the other's last frame
  (`Fingerprints.RangesShareFingerprint`; 1-123 and 11-23). For different paths one must be the other followed by such
  digits (`Fingerprints.OutputsShareFingerprint`; frames 12-50 of `o` and 2-50 of `o1`). Ranges whose first frames have
  equally many digits, and paths that do not end in a digit, are told apart (`EqualWidthsDiffer`, `NamesDiffer`).
* A task view survives the wire exactly when its numbers and lengths fit 32 bits and its lists hold no nil element
  (`Views.DecodingUndoesEncoding`).

## Model

| member | source | states |
|---|---|---|
| `TaskInvariant.CancelKeeps` | internal/service/pipeline/runner.go:120-156 | Cancelling an unfinished task keeps the invariant (dependency order, attempt accounting, which node statuses a task status admits) and touches no success, no identity and no edge of the graph. |
| `TaskInvariant.RetryKeeps` | internal/service/pipeline/runner.go:184-208 | Retry of a failed task keeps the invariant and every success, although it resets all attempts. |
| `TaskInvariant.RecoverKeeps` | internal/service/pipeline/runner.go:230-259 | Recovery keeps the invariant, whether it requeues an interrupted node or fails it on its last attempt. |
| `TaskInvariant.StartKeeps` | internal/service/pipeline/runner.go:363-389 | Starting nodes keeps `attempts <= maxAttempts` and dependency order although `startNodes` never tests the budget. |
| `TaskInvariant.FinishKeeps` | internal/service/pipeline/runner.go:640-690 | A completion, successful or not, keeps the invariant and changes only its own node; a node fails exactly on its last attempt. |
| `TaskInvariant.ParkKeeps` | internal/service/pipeline/runner.go:435-454 | Parking, which has no guard, keeps the invariant when its node was started and has not succeeded - what the system invariant provides. |
| `TaskInvariant.ConfirmKeeps` | internal/service/pipeline/runner.go:467-497 | An accepted confirmation keeps the invariant and moves one waiting node to succeeded. |
| `TaskInvariant.AdjustKeeps` | internal/service/pipeline/runner.go:512-530 | Adjusting an output keeps the invariant and every status. |
| `TaskInvariant.CompleteKeeps` | internal/service/pipeline/runner.go:713-763 | Settling a blocked task keeps the invariant: a failed task has a failed node, nothing busy and nothing pending; a succeeded one only successes. |
| `TaskInvariant.DependenciesAreDone` | internal/service/pipeline/runner.go:833-841 | The first-match look-up of every dependency agrees with the set of succeeded IDs. |
| `Contents.FinishStores` | internal/service/pipeline/runner.go:640-690 | A completion stores the output the invocation returned, or its trimmed error and code with the old output kept, fails the node exactly on its last attempt, and touches no other node. |
| `Contents.ParkStores` | internal/service/pipeline/runner.go:435-454 | A parked node holds the output its invocation returned; nothing else of it and no other node changes. |
| `Contents.ConfirmStores` | internal/service/pipeline/runner.go:478-497 | A confirmation stores the adjusted output if it is not empty, and otherwise keeps the one that was stored; attempts, errors and other nodes stay. |
| `Contents.ConfirmAccepts` | internal/service/pipeline/runner.go:467-477 | A confirmation is accepted if and only if the task is unfinished and the node waits; each error is returned for exactly its reason. |
| `Contents.AdjustStores` | internal/service/pipeline/runner.go:512-530 | An adjustment replaces the output of one node and nothing else of it. |
| `Contents.AdjustAccepts` | internal/service/pipeline/runner.go:512-522 | Adjusting, retrying and parking are refused exactly for their reasons. |
| `Contents.CancelEnds` | internal/service/pipeline/runner.go:136-149 | Cancelling leaves no node open, waiting ones included, and takes no output, error or attempt away. |
| `Contents.CompleteGivesUpPending` | internal/service/pipeline/runner.go:729-757 | Settling fails a task exactly if a node failed, gives up exactly the pending nodes, and leaves every other node as it was. |
| `Contents.RetryStartsOver` | internal/service/pipeline/runner.go:190-205 | A retry keeps every success as it is and starts every other node over, with nothing left of its attempts. |
| `Contents.RecoverTouchesRunning` | internal/service/pipeline/runner.go:232-252 | Recovery touches running nodes only: pending again with attempts left, otherwise failed with the fixed text. |
| `Contents.StartCounts` | internal/service/pipeline/runner.go:370-384 | A started node was pending and has one more attempt, a new starting time and no error; any other is as it was. |
| `Contents.InputsAreOutputs` | internal/service/pipeline/runner.go:843-851 | What a node is handed for a dependency is the output stored there. |
| `Contents.DraftKeepsSubmission` | internal/service/pipeline/runner.go:59-93 | The drafted task carries the submission: trimmed key, input, demand for confirmation, and node for node its workflow, with one attempt where the spec says none. |
| `Contents.DraftAccepts` | internal/service/pipeline/runner.go:55-93 | A submission is drafted if and only if its key is not blank, its workflow well-formed and acyclic, and every text in it valid; a fault of the workflow is reported before one of a text. |
| `Contents.DraftedTasksAreSound` | internal/service/pipeline/types.go:131-198 | In a drafted task names and targets are not blank, kinds can be invoked, and dependencies are other nodes, each named once. |
| `Progress.ReadyNodesExact` | internal/service/pipeline/runner.go:823-831 | `readyNodes` lists exactly the pending nodes whose dependencies have all succeeded, each once. |
| `Progress.ReadyInNodeOrder` | internal/service/pipeline/runner.go:823-831 | The ready list is in node order. |
| `Progress.StartedSound` | internal/service/pipeline/runner.go:363-389 | Every started node was startable in the task as it was, and none is started twice. |
| `Progress.StartedComplete` | internal/service/pipeline/runner.go:363-389 | Every startable node of the list is started. |
| `Progress.StartedInOrder` | internal/service/pipeline/runner.go:370-384 | Executors are started in the order of the ready list. |
| `Progress.BlockedByFailure` | internal/service/pipeline/runner.go:823-841 | In an acyclic idle task a pending node that is not ready has a chain of dependencies down to a failed node. |
| `Progress.NothingReady` | internal/service/pipeline/runner.go:823-831 | The ready list is empty exactly when no node is ready. |
| `Progress.SchedulerProgress` | internal/service/pipeline/runner.go:713-760 | An unfinished task with nothing running or waiting has a ready node or is finished by `completeIfBlocked`: no acyclic graph gets stuck. |
| `Progress.FailureIsMaximal` | internal/service/pipeline/runner.go:729-745 | A failing task gives up exactly on the nodes with a failed ancestor, if and only if nothing was ready when it settled. |
| `SystemInvariant.InitialOk` | internal/service/pipeline/runner.go:74-107 | The state in which Submit is about to start a new task satisfies the system invariant. |
| `SystemInvariant.ApiKeeps` | internal/service/pipeline/runner.go:117-266 | Every API section, and every later signal, sweep, abort, start and recheck, keeps the system invariant whatever the worker and the executors are doing. |
| `SystemInvariant.WorkKeeps` | internal/service/pipeline/runner.go:301-351 | Every step of the worker keeps it, with a repository that may fail. |
| `SystemInvariant.RunKeeps` | internal/service/pipeline/runner.go:405-429 | Every step of an executor keeps it, including late completions and parking in a cancelled task. |
| `SystemInvariant.StepKeeps` | internal/service/pipeline/runner.go:117-851 | Every step keeps it, a crash included. |
| `SystemInvariant.RunsKeep` | internal/service/pipeline/runner.go:117-851 | It holds in every reachable state. |
| `SystemInvariant.InputsComplete` | internal/service/pipeline/runner.go:843-851 | A node whose dependencies have succeeded is handed an output for each of them and for nothing else. |
| `SystemResults.SuccessIsPermanent` | internal/service/pipeline/runner.go:120-266 | Over any run the identity and the graph of a task never change and the set of succeeded nodes only grows - through cancel, retry, recovery, adjustment and crashes. |
| `SystemResults.DependencyOrder` | internal/service/pipeline/runner.go:363-403 | In every reachable state a running, waiting, succeeded or failed node has all dependencies succeeded; pending implies attempts left, running or waiting at least one attempt used, failed all of them. |
| `SystemResults.EndsAreFinal` | internal/service/pipeline/runner.go:117-173 | Succeeded is absorbing, cancelled is absorbing with no new success or failure whatever completes late, and failed is left only through Retry. |
| `SystemResults.StepCounts` | internal/service/pipeline/runner.go:373-382 | Outside Retry an attempt is counted exactly when an executor is started, and only for a pending node. |
| `SystemResults.InvocationsAreBudgeted` | internal/service/pipeline/runner.go:363-403 | Without Retry a node is started exactly as often as its attempts grow, at most its budget, through crashes and recoveries. |
| `SystemResults.SucceededIsNeverReinvoked` | internal/service/pipeline/runner.go:193-205 | A node that has succeeded is never started again, retries included. |
| `Provenance.OutputsHaveAuthors` | internal/service/pipeline/runner.go:405-530 | In every reachable state every stored output was returned by an invocation of that very node, or given to it by a human who confirmed or adjusted it. |
| `Provenance.InputsHaveAuthors` | internal/service/pipeline/runner.go:580-596 | In every reachable state an invocation has been handed exactly its dependencies, each with an output its own invocation or a human gave. |
| `Provenance.ReadHandsOver` | internal/service/pipeline/runner.go:405-410 | When an executor reads the task, each of its dependencies has succeeded and it is handed what is stored there. |
| `Provenance.AnswersGoOn` | internal/service/pipeline/runner.go:410-429 | What an invocation returns goes on unchanged, to the human if the node is gated and it is an output, and otherwise to finishNode. |
| `Provenance.OnlyGatedNodesWait` | internal/service/pipeline/runner.go:415-433 | In every reachable state only gated nodes of a task that demands confirmation wait. |
| `Provenance.EveryChangeIsStamped` | internal/service/pipeline/runner.go:136-763 | Whatever changes a task stamps it with the time of the change, and whatever ends it with the time of its end. |
| `Scheduling.AtMostOneWorker` | internal/service/pipeline/runner.go:268-276 | A task has at most one worker in every reachable state. |
| `Scheduling.NoLostRetry` | internal/service/pipeline/runner.go:277-296 | With a repository that does not fail, an unfinished task always has a worker or someone who will re-check and start one, in every race of retry, cancel and worker shutdown. |
| `Scheduling.RecoverServesAgain` | internal/service/pipeline/runner.go:216-266 | Recover after a crash serves the task again. |
| `Scheduling.CallersServeAgain` | internal/service/pipeline/runner.go:100-212 | After a crash, submitting the task once more, or retrying a failed one, serves it again. |
| `Scheduling.RecoverPassesActiveTasks` | internal/service/pipeline/runner.go:223-226 | Recover leaves a task alone that has a worker. |
| `Scheduling.EndedTasksAreLeftAlone` | internal/service/pipeline/runner.go:287-293 | A worker is started for an ended task only by a retry of a failed one or a Recover under way. |
| `Scheduling.ReturnsWithErrorExactly` | internal/service/pipeline/runner.go:405-429 | An executor returns an error if and only if the repository failed it or its context was cancelled. |
| `Scheduling.RechecksExactly` | internal/service/pipeline/runner.go:298-313 | A repository error makes the worker leave without a recheck, and it asks for one exactly when it saw the task ended. |
| `Scheduling.JoinsExactly` | internal/service/pipeline/runner.go:330-350 | A worker goes round again if and only if no executor of its batch returned an error. |
| `Scheduling.QuietRuns` | internal/service/pipeline/runner.go:301-351 | Without crash or repository error every busy node has a live executor, and what the worker saw still holds when it acts on it. |
| `Scheduling.FailureIsMaximalInRuns` | internal/service/pipeline/runner.go:713-745 | The reliable case of the theorem below: without crash or repository error the cancelled nodes of a failed task are exactly those with a failed ancestor, and all others succeeded or failed. |
| `Scheduling.ConfirmedTooLate` | internal/service/pipeline/runner.go:319-325 | The family behind the first exception: in any task with one orphaned waiting node and a failure, confirming that node between look and settling gives up every node it frees. |
| `Recovery.StepKeepsAttended` | internal/service/pipeline/runner.go:117-851 | Every step - crashes, repository errors and a late Recover included - keeps every running and waiting node accounted for and the worker's sight true, if a start finds nothing left behind. |
| `Recovery.FailureIsMaximalThroughCrashes` | internal/service/pipeline/runner.go:713-745 | In every run in which no worker is started over leftovers, through crashes, repository errors, retries and recoveries, a failed task has given up exactly on the nodes with a failed ancestor. |
| `Recovery.FailsOnlyBySettling` | internal/service/pipeline/runner.go:713-745 | A task fails only by a settling, and that failure is maximal if and only if nothing was ready at that step. |
| `Recovery.RecoveredIsQuiet` | internal/service/pipeline/runner.go:230-259 | Requeuing a task without a worker and without waiting nodes leaves nothing behind, whatever was running when the process died. |
| `Recovery.FailureIsMaximalWithRecovery` | internal/service/pipeline/runner.go:214-266 | Failure is maximal in every reliable run interrupted by any number of crashes that find no node waiting, if nobody submits or retries between a crash and the requeue. |
| `LateSteps.OnlyParkingTouchesCancelled` | internal/service/pipeline/runner.go:435-454 | A step changes a cancelled task if and only if it parks a node. |
| `LateSteps.RequeueTakesAway` | internal/service/pipeline/runner.go:230-259 | A requeue of an unfinished task leaves every executor its running node if and only if it meets none at work. |
| `LateSteps.CompletionIsRecordedExactly` | internal/service/pipeline/runner.go:640-690 | A completion is stored if and only if the task is unfinished and the node still running, and then the node holds exactly what the invocation returned and no other node changes. |
| `LateSteps.NoCompletionIsLost` | internal/service/pipeline/runner.go:405-433 | In every run from a submission in which no requeue meets an executor at work, whatever an invocation returns while the task is unfinished is stored at its node: its output, or its error and code with the old output kept. |
| `Witness.LateRequeueDropsOutput` | internal/service/pipeline/runner.go:223-265 | The schedule without crash or repository error in which a late Recover fails a node whose executor lives and comes back with an output. |
| `Witness.CancelledTaskGetsWaitingNode` | internal/service/pipeline/runner.go:435-454 | The schedule that leaves a waiting node in a cancelled task. |
| `Witness.StartedOverLeftoversGivesUpTooMuch` | internal/service/pipeline/runner.go:268-276 | The schedule in which a submission with the same key starts a worker over leftovers and a node without dependencies is given up. |
| `Witness.ConfirmedTooLateInARun` | internal/service/pipeline/runner.go:319-325 | The schedule in which a node orphaned while waiting is confirmed after the look and before the settling, and its dependant is given up with nothing failed above it. |
| `Witness.OrphanedWaitSpins` | internal/service/pipeline/runner.go:319-325 | The schedule after which a worker turns for any number of rounds over a waiting node that a crash orphaned. |
| `WorkBound.WorkersTerminate` | internal/service/pipeline/runner.go:301-351 | In every schedule that starts no worker over leftovers, with crashes, repository errors, retries and recoveries and however interleaved, a worker takes at most a number of steps linear in the attempts left, two more for each requeue and the budget again for each retry. |
| `WorkBound.LaunchPays` | internal/service/pipeline/runner.go:363-389 | Starting a batch lowers the attempts left by at least its size. |
| `WorkBound.SpinsOnLeftovers` | internal/service/pipeline/runner.go:319-325 | A worker that looks and settles is back where it was if and only if nothing is ready and some node is running or waiting. |
| `Confirmation.GateHolds` | internal/service/pipeline/runner.go:405-433 | Until someone confirms it, a gated node does not succeed, and no node depending on it is started, in any run. |
| `Gates.NothingBelowTheGateStarts` | internal/service/pipeline/runner.go:405-433 | Until someone confirms a gated node, no node below it in the graph is ever started, however far below. |
| `Gates.GatesOfTheWorkflow` | internal/service/pipeline/runner.go:431-433 | In the workflow a human confirms Intent, ScenePlan, DesignShots, AssembleScene and Inspect, and no other node. |
| `Gates.RenderingWaitsForHumans` | internal/service/pipeline/shot_preview.go:24-42 | In every run of the workflow nothing but Initialize and Intent is started before Intent is confirmed, and neither the final render nor anything after it before Inspect is. |
| `Confirmation.LeavesOnlyWhenDecided` | internal/service/pipeline/runner.go:419-425 | An executor leaves the wait on its channel only after its node has succeeded or the task has been cancelled. |
| `Confirmation.ArmedIsNeverLost` | internal/service/pipeline/runner.go:541-564 | A confirmation or cancellation issued once the channel exists is never lost: short of a crash the listener stays signalled, or stored for a signal still to come, or, in a cancelled task, reached by the cancellation of its context or by a sweep or abort still to come. |
| `Confirmation.CancelReachesInRuns` | internal/service/pipeline/runner.go:117-173 | In every reachable state of a cancelled task the batch has a cancelled context, or the Cancel that stored the status has still to sweep or to abort it. |
| `Confirmation.DecisionIsHeard` | internal/service/pipeline/runner.go:419-425 | An armed listener whose node is decided or whose task is cancelled can leave its wait after at most one obligation already taken up: a signal, a sweep or an abort. |
| `Confirmation.DecidedListenersLeave` | internal/service/pipeline/runner.go:419-425 | Over any run without a crash: once the node is confirmed or the task cancelled, an armed listener can leave after at most one pending obligation. |
| `Confirmation.OpeningDecides` | internal/service/pipeline/runner.go:416-419 | The listener is armed when it creates its channel if and only if its node is undecided, the signal is still to come, or the task is cancelled - in which case the cancellation is on its way to it; otherwise the confirmation is lost. |
| `Confirmation.LostIsForever` | internal/service/pipeline/runner.go:553-564 | A lost listener stays lost under every step but a cancel or a crash. |
| `Confirmation.CancelFreesTheLost` | internal/service/pipeline/runner.go:150-171 | A cancel arms a lost listener, and after its sweep the listener can leave. |
| `Confirmation.ConfirmedBeforeListening` | internal/service/pipeline/runner.go:410-426 | From every state in which a gated executor is about to park there is a schedule that loses the confirmation. |
| `Validate.Validate` | internal/service/pipeline/types.go:131-198 | Returns nil exactly on workflows whose nodes are well-formed and whose graph has a topological rank; an error states a defect the workflow has; a cycle is reported only when there is no other. |
| `Validate.DepthFirst.Visit` | internal/service/pipeline/types.go:174-191 | The recursive visit keeps the visited set closed under dependencies and ranked by finishing order, or finds a real cycle; it terminates by the nodes neither visiting nor visited. |
| `Validate.CheckNodes` | internal/service/pipeline/types.go:135-156 | The first loop accepts exactly when every node is fine on its own and IDs are distinct, and indexes the nodes. |
| `Validate.CheckDependencies` | internal/service/pipeline/types.go:157-171 | The second loop accepts a node when its dependencies are known, distinct and not itself, and otherwise names a real defect. |
| `Validate.FindCycle` | internal/service/pipeline/types.go:172-196 | The third loop returns nil only on a graph with a topological rank and otherwise a node on a real cycle. |
| `Validate.CyclesAreNotRanked` | internal/service/pipeline/types.go:174-178 | A graph with a cycle has no topological rank, so the two verdicts exclude each other. |
| `Validate.ValidatedGraphIsOk` | internal/service/pipeline/types.go:131-198 | The nodes built from an accepted workflow have unique IDs, a ranked graph and a positive budget - what the scheduler relies on. |
| `Repository.CloneTask` | internal/service/pipeline/types.go:399-411 | The clone says what the task says and reaches only fresh arrays. |
| `Repository.MemoryRepository.CreateIfAbsent` | internal/service/pipeline/repository.go:40-53 | A new key creates and is bound; a bound key returns the bound task for equal input and conflicts otherwise; the index stays consistent and the returned copy shares nothing with the store. |
| `Repository.MemoryRepository.Get` | internal/service/pipeline/repository.go:55-63 | Returns a fresh copy of exactly the stored task, or not found. |
| `Repository.MemoryRepository.Update` | internal/service/pipeline/repository.go:65-73 | Replaces exactly the task with the ID, or reports not found and changes nothing. |
| `Repository.CallersCannotReachStoredTasks` | internal/service/pipeline/repository.go:25-26 | Whatever callers write to outside what the repository owns, the stored tasks stay what they were. |
| `Runner.Runner.Submit` | internal/service/pipeline/runner.go:55-107 | The all-inputs contract: the first failing check decides the error and changes nothing, otherwise the store becomes what CreateIfAbsent makes of the drafted task, which carries the submission (`Contents.DraftKeepsSubmission`), and the answer is created, existing or conflict. |
| `Runner.BuildTask` | internal/service/pipeline/runner.go:59-93 | Checks, snapshots and the node loop build exactly the drafted task (`Contents.DraftKeepsSubmission`), on fresh memory. |
| `Runner.Runner.Cancel` | internal/service/pipeline/runner.go:120-156 | Stores the cancelled task, is a no-op on a cancelled one, and refuses a succeeded or failed one. |
| `Runner.Runner.Retry` | internal/service/pipeline/runner.go:178-213 | Stores the reset task and returns a private copy, or refuses and changes nothing. |
| `Runner.Runner.Requeue` | internal/service/pipeline/runner.go:230-262 | The locked section of Recover stores exactly the recovered task. |
| `Runner.Runner.ConfirmNode` | internal/service/pipeline/runner.go:467-497 | Stores the confirmed task with its adjusted output (`Contents.ConfirmStores`), or returns the right one of four errors (`Contents.ConfirmAccepts`) and changes nothing. |
| `Runner.Runner.AdjustNodeOutput` | internal/service/pipeline/runner.go:512-530 | Stores the adjusted task, or an error and no change. |
| `Runner.Runner.SetTaskRunning` | internal/service/pipeline/runner.go:353-361 | Marks a pending task running and leaves any other as it is. |
| `Runner.Runner.Ready` | internal/service/pipeline/runner.go:823-841 | The loops over nodes and dependencies compute exactly the ready list. |
| `Runner.Runner.StartNodes` | internal/service/pipeline/runner.go:363-389 | The nested loops, which test dependencies in the slice they are changing, store and return exactly what starting all at once would. |
| `Runner.Runner.FinishNode` | internal/service/pipeline/runner.go:640-690 | Stores exactly the finished task, whose contents `Contents.FinishStores` spells out; a late completion of an ended task changes nothing. |
| `Runner.Runner.SetNodeWaitingConfirmation` | internal/service/pipeline/runner.go:435-454 | Stores the parked task whatever the status, or reports an unknown node. |
| `Runner.Runner.CompleteIfBlocked` | internal/service/pipeline/runner.go:713-763 | Three loops decide and store exactly the settled task. |
| `NodeLoops.CollectInputs` | internal/service/pipeline/runner.go:843-851 | The loop hands out a private copy of the output of each dependency that has one. |
| `NodeLoops.FindNode` | internal/service/pipeline/types.go:252-259 | Returns a private copy of the first node with the ID. |
| `NodeLoops.HasAllDependencies` | internal/service/pipeline/runner.go:833-841 | True exactly when every dependency exists and has succeeded. |
| `NodeLoops.CollectReady` | internal/service/pipeline/runner.go:823-831 | Collects exactly the ready IDs in node order. |
| `NodeLoops.StartReady` | internal/service/pipeline/runner.go:370-384 | Both loops of startNodes: the new slice and the started copies in the order of the list. |
| `NodeLoops.BuildNodes` | internal/service/pipeline/runner.go:80-93 | The loop over the node specs builds exactly the drafted nodes or stops at the first invalid input. |
| `Switchboard.Board.Sweep` | internal/service/pipeline/runner.go:157-168 | The sweep of Cancel signals and forgets exactly the channels of its task. |
| `Switchboard.Board.SignalConfirm` | internal/service/pipeline/runner.go:553-564 | Signals and forgets the channel of the node if there is one, and touches no other task. |
| `Switchboard.Board.GetConfirmChan` | internal/service/pipeline/runner.go:541-551 | Returns the stored channel of the node or stores a new one. |
| `Switchboard.Board.Claim` | internal/service/pipeline/runner.go:268-276 | The slot is claimed exactly if it is free. |
| `Switchboard.KeysAreApart` | internal/service/pipeline/runner.go:157-164 | For IDs without a colon a channel key has the prefix of exactly its own task. |
| `Switchboard.OthersKeepChannels` | internal/service/pipeline/runner.go:159-166 | What changes only keys with the prefix of one task changes no channel of another. |
| `Switchboard.OpenRefines` | internal/service/pipeline/runner.go:541-551 | Seen from its task, getConfirmChan is the Open step of the executor that calls it. |
| `Switchboard.SignalRefines` | internal/service/pipeline/runner.go:553-564 | Seen from its task, signalConfirm is what the state machine's Signal step does. |
| `Switchboard.SweepRefines` | internal/service/pipeline/runner.go:157-168 | Seen from its task, the sweep of Cancel is what the state machine's Sweep step does. |
| `Switchboard.ClaimRefines` | internal/service/pipeline/runner.go:268-276 | Seen from its task, claiming the slot is what the state machine's Start step does. |
| `Submissions.IdempotentSubmission` | internal/service/pipeline/repository.go:40-53 | Over any history with one key the first submission creates, later ones with equal input get the same task and create nothing, and different input always conflicts. |
| `Submissions.BoundForever` | internal/service/pipeline/repository.go:40-53 | A bound key stays bound to its task and input whatever happens in between. |
| `Submissions.StaysConsistent` | internal/service/pipeline/repository.go:40-53 | Every event, a submission or a rewrite that keeps a task's identity, keeps the index consistent with the stored tasks. |
| `Submissions.DraftsStartTheMachine` | internal/service/pipeline/runner.go:55-93 | Every task that Submit can create has a sound graph and is a starting state of the state machine. |
| `ShotPreview.WorkflowIsValid` | internal/service/pipeline/shot_preview.go:24-42 | The 13-node workflow passes Validate for every valid input. |
| `ShotPreview.WorkflowFits` | internal/service/pipeline/shot_preview.go:24-63 | Every node has a kind and target its builder knows and depends on everything the builder asks for. |
| `ShotPreview.AgentFailsOnlyOnData` | internal/service/pipeline/runtime.go:125-169 | Given its dependencies the agent builder fails only because of the data. |
| `ShotPreview.StepFailsOnlyOnData` | internal/service/pipeline/runtime.go:188-225 | Likewise the step dispatcher, the fan-out checks included. |
| `ShotPreview.ToolFailsOnlyOnData` | internal/service/pipeline/runtime.go:314-355 | Likewise the tool builder. |
| `ShotPreview.RenderChainFits` | internal/service/pipeline/runtime.go:314-340 | Within a task both renders read the file scene assembly named, write to different places, and the encoder reads exactly the frames the final render writes. |
| `ShotPreview.EveryInvocationIsComplete` | internal/service/pipeline/runtime.go:125-397 | In no run of the workflow does a builder find a dependency missing, lack a builder or meet an unknown step; an invocation sees exactly its dependencies. |
| `Payloads.BadTaskInputExactly` | internal/service/pipeline/runtime.go:171-180 | An agent is refused for the task input if and only if that cannot be decoded. |
| `Payloads.IntentInput` | internal/service/pipeline/runtime.go:134-142 | The intent agent is handed the prompt and nothing else, or refused exactly for a missing one. |
| `Payloads.PlannerInput` | internal/service/pipeline/runtime.go:143-144 | The planner is handed the checked specification byte for byte. |
| `Payloads.DesignerInput` | internal/service/pipeline/runtime.go:145-154 | The designer is handed the decoded specification as `scene_spec` and the manifests as `asset_manifests`, if and only if both are there. |
| `Payloads.AssemblerInput` | internal/service/pipeline/runtime.go:155-165 | The assembler is handed the manifests, the shot plan and the scene path of its task, if and only if both are there. |
| `Payloads.SpecOutput` | internal/service/pipeline/runtime.go:195-207 | The specification passes unchanged, if and only if it is an object of the one version with a scene ID. |
| `Payloads.FanOutInput` | internal/service/pipeline/runtime.go:208-209 | The fan-out is handed the asset tasks of the plan, if and only if there are any. |
| `Payloads.InitializeOutput` | internal/service/pipeline/runtime.go:190-194 | Initialization passes its input on unchanged, if and only if it is JSON. |
| `Payloads.InspectOutput` | internal/service/pipeline/runtime.go:210-215 | Inspection wraps the preview. |
| `Payloads.PublishOutput` | internal/service/pipeline/runtime.go:216-221 | Publishing wraps the verified artifact. |
| `Payloads.RenderInput` | internal/service/pipeline/runtime.go:316-334 | A render is handed the assembled file and its place in the task, one frame for the preview and 250 for the final render, if and only if the file is named. |
| `Payloads.EncodeInput` | internal/service/pipeline/runtime.go:335-340 | The encoder is handed the frames of the final render and the video path of the task. |
| `Payloads.VerifyInput` | internal/service/pipeline/runtime.go:341-352 | Verification is handed the path the encoder reported, if and only if it did. |
| `Payloads.ToolsGetTheirArguments` | internal/productiontools/production_tools.go:301-313 | Every tool of the workflow is handed exactly the arguments it decodes; an unknown one would be refused. |
| `Payloads.AgentsOfTheWorkflow` | internal/service/pipeline/shot_preview.go:24-42 | No agent of the workflow is the asset creator and no two nodes share one. |
| `Payloads.SpecIsPassedOn` | internal/service/pipeline/runtime.go:143-207 | The planner works from the answer of the intent agent, byte for byte, once it has passed the check. |
| `Payloads.SameManifests` | internal/service/pipeline/runtime.go:145-165 | Designer and assembler see the same manifests. |
| `Payloads.RequestsSayTheRun` | internal/service/pipeline/runner.go:580-596 | In every run a request speaks of the task as submitted and of its own node. |
| `Payloads.InitializeHandsOnTheInput` | internal/service/pipeline/shot_preview.go:24-42 | In every run Initialize hands on the very text the workflow was built with. |
| `Payloads.DesignerSeesSpecAndManifests` | internal/service/pipeline/runtime.go:145-154 | In every run the designer works from what ValidateSpec and CreateAssets were given by their own invocations or by a human. |
| `FanOut.StepKeeps` | internal/service/pipeline/asset_fanout.go:47-95 | Every step keeps: each index with one worker or done, slots hold their own outputs, an error gets through and cancels. |
| `FanOut.RefinesSequentialMap` | internal/service/pipeline/asset_fanout.go:20-96 | If the caller does not cancel, any number of workers and any schedule give the sequential map in order exactly when every input has an output, and otherwise the error of one input - a genuine one, whatever the agents answer under a context that another failure has cancelled. |
| `FanOut.FullExactlyWhenDispatched` | internal/service/pipeline/asset_fanout.go:78-95 | A success has all slots filled if and only if every index was dispatched, and an index is left out only under a cancelled caller. |
| `FanOut.DispatchedOnceInOrder` | internal/service/pipeline/asset_fanout.go:78-85 | Indexes leave the dispatcher in plan order, each once. |
| `FanOut.CalledAtMostOnce` | internal/service/pipeline/asset_fanout.go:51-75 | No input is given to the agent twice. |
| `FanOut.CallsAreBounded` | internal/service/pipeline/asset_fanout.go:38-50 | At every moment no more agent calls are under way than allowed, nor more than there are inputs. |
| `FanOut.NeverStuck` | internal/service/pipeline/asset_fanout.go:47-92 | Until it has returned some goroutine can move, also when workers leave early. |
| `FanOut.FanOutTerminates` | internal/service/pipeline/asset_fanout.go:47-95 | No schedule is longer than a linear bound. |
| `FanOut.CancelledCallerGetsEmptySlots` | internal/service/pipeline/asset_fanout.go:79-95 | For every plan and parallelism a cancelled caller can be answered with success and empty slots. |
| `ToolGuard.ToolExecutionGuard.Begin` | internal/agent/tool_guard.go:156-172 | Refuses in the order consecutive failures, total, per tool and then changes nothing; otherwise counts and numbers the call. |
| `ToolGuard.ToolExecutionGuard.Finish` | internal/agent/tool_guard.go:174-182 | A success clears the failure count, a failure raises it. |
| `ToolGuard.InvokableRun` | internal/agent/tool_guard.go:108-139 | Takes the one number of attempts that fits kind and errors, with one key for all, reports the outcome once, and never reaches the error after the loop. |
| `ToolGuard.EndsOnce` | internal/agent/tool_guard.go:141-154 | The attempt a call ends with is determined by the kind and the errors. |
| `ToolGuard.CallIDsAreApart` | internal/agent/tool_guard.go:171 | A call ID determines the tool and the number. |
| `ToolGuard.KeysAreApart` | internal/agent/tool_guard.go:120 | Keys of one run differ when the calls do, and run IDs without a colon keep runs apart. |
| `ToolGuard.AdmissionsAreNumbered` | internal/agent/tool_guard.go:156-172 | Admitted calls are numbered consecutively in any interleaving. |
| `ToolGuard.AdmissionsAreBounded` | internal/agent/tool_guard.go:156-182 | In any interleaving at most the total limit and at most four calls per tool are admitted. |
| `ToolGuard.AdmitsExactlyWithinLimits` | internal/agent/tool_guard.go:156-182 | After any history a call is let through if and only if fewer than three calls failed since the last success, the run is below its limit and the tool was used fewer than four times. |
| `ToolGuard.AdmittedKeysAreDistinct` | internal/agent/tool_guard.go:117-122 | Two admitted calls of one run never share an idempotency key. |
| `ToolGuard.FailuresCloseTheGuard` | internal/agent/tool_guard.go:159-161 | After three failures in a row nothing is admitted until a call succeeds. |
| `Ledger.AtMostOncePerKey` | internal/productiontools/production_tools.go:639-659 | Whatever interleaves, the action runs at most once per key, and once exactly if someone entered with it. |
| `Ledger.EveryoneGetsTheOneResult` | internal/productiontools/production_tools.go:639-659 | Every caller with the fingerprint of the entry that is not cancelled gets the one result; a conflict is returned exactly for another fingerprint. |
| `Ledger.AnswersComeFromActions` | internal/productiontools/production_tools.go:639-659 | Every text a caller is answered with was returned by an action under its own key and fingerprint. |
| `Ledger.UnkeyedAnswers` | internal/productiontools/production_tools.go:639-645 | A caller without a key is answered with the text of its own action. |
| `Ledger.NeverStuck` | internal/productiontools/production_tools.go:646-657 | Nobody waits for an entry without an action in progress. |
| `Ledger.RetriesReplayOneExecution` | internal/productiontools/production_tools.go:480-490 | Up to three attempts of a guarded inspection run the action once and end with its first result. |
| `Ledger.IdempotencyLedger.Enter` | internal/productiontools/production_tools.go:640-655 | The locked section makes an entry, joins one or reports a conflict, as the state machine has it. |
| `Render.OutcomesAreFinal` | internal/productiontools/render_jobs.go:64-159 | Success and failure are final, and a job whose cancellation took effect never succeeds; that the verdict is the right one is `Render.ProcessDecides`. |
| `Render.OutcomesHaveCauses` | internal/productiontools/render_jobs.go:104-110 | In every run a success comes from a process that exited cleanly, a failure from one that did not or was never started, and a cancellation from a caller. |
| `Render.ProcessDecides` | internal/productiontools/render_jobs.go:104-110 | An uncancelled render whose process has been waited for has succeeded if and only if the process exited cleanly, and failed otherwise. |
| `Render.StartDecides` | internal/productiontools/render_jobs.go:79-90 | A process that cannot be started never runs, and the job has failed when Submit returns. |
| `Render.PlainRender` | internal/productiontools/render_jobs.go:64-112 | The plain schedule ends as the process does, stamped, with the artifact exactly after a clean exit. |
| `Render.PollingEnds` | internal/service/pipeline/runtime.go:281-312 | A poller goes on exactly while the job is unfinished and fetches the artifact exactly of a success. |
| `Render.OnlyMarkRevives` | internal/productiontools/render_jobs.go:88-92 | A final job is revived by exactly one step: the write of "running" in an overtaken Submit. |
| `Render.KnownJobsEndOnce` | internal/productiontools/render_jobs.go:125-159 | Cancelled only by those who know its ID, a job makes at most one terminal transition and is stamped exactly when final. |
| `Render.OvertakenSubmitRevives` | internal/productiontools/render_jobs.go:74-112 | The schedule in which an early Cancel is overwritten and the job ends twice. |
| `Render.SeenSuccessHasItsArtifact` | internal/service/pipeline/runtime.go:281-312 | Once a poll has seen success the artifact call finds the artifact the job was submitted with, whatever happens in between. |
| `Render.RenderJobManager.CancelJob` | internal/productiontools/render_jobs.go:125-147 | Cancels exactly an unfinished job and reports a final one. |
| `Render.RenderJobManager.FinishJob` | internal/productiontools/render_jobs.go:149-159 | Finishes exactly an unfinished job and ignores unknown and final ones. |
| `Render.RenderJobManager.Enqueue` | internal/productiontools/render_jobs.go:64-77 | Adds one queued job, a starting state of the job's state machine. |
| `Fingerprints.RangesShareFingerprint` | internal/productiontools/render_jobs.go:185 | For one project and output two valid ranges share a fingerprint if and only if digits move over from the last frame of one to the first frame of the other. |
| `Fingerprints.OutputsShareFingerprint` | internal/productiontools/render_jobs.go:185 | For paths of different length a fingerprint is shared if and only if the longer path is the shorter one followed by a number that leads the digits of its range. |
| `Fingerprints.EqualLengthsShareFingerprint` | internal/productiontools/render_jobs.go:185 | For paths of equal length a fingerprint is shared if and only if the paths are the same and the ranges run together to one number. |
| `Fingerprints.EqualWidthsDiffer` | internal/productiontools/render_jobs.go:185 | For paths of one length and first frames of equal width, fingerprints agree only for the same joined path and the same range. |
| `Fingerprints.NamesDiffer` | internal/productiontools/render_jobs.go:185 | Different paths that do not end in a digit never share a fingerprint. |
| `Fingerprints.FingerprintsCollide` | internal/productiontools/render_jobs.go:185 | Two valid ranges of one project and output with one fingerprint. |
| `Fingerprints.OutputsCollide` | internal/productiontools/render_jobs.go:185 | Two outputs with one fingerprint, although the digits of their ranges differ. |
| `Thrift.ReadWriteI32` | kitex_gen/handler/v0_1/k-shot_preview.go:495-500 | Writing truncates to 32 bits and reading gives the truncated number back. |
| `Thrift.SkipIsLocal` | kitex_gen/handler/v0_1/k-shot_preview.go:88-93 | How many bytes a skipped value takes does not depend on what follows it. |
| `WireLayout.SkipsWrittenValue` | kitex_gen/handler/v0_1/k-shot_preview.go:88-93 | A reader that does not know a field skips exactly the bytes its value was written with, nested structs and lists included. |
| `WireLayout.FixedWidths` | kitex_gen/handler/v0_1/k-shot_preview.go:88-93 | The fixed-size types the view does not use are skipped by their widths. |
| `WireLayout.I32IsBigEndian` | kitex_gen/handler/v0_1/k-shot_preview.go:495-500 | Numbers go out in two's complement, highest byte first. |
| `WireLayout.FlagReading` | kitex_gen/handler/v0_1/k-shot_preview.go:150-162 | A flag is read as set exactly from the byte 1. |
| `CodecResults.ReadsFields` | kitex_gen/handler/v0_1/k-shot_preview.go:23-120 | Whatever known and skippable fields are on the wire, in whatever order, reading sets what they say, checks the required ones and takes exactly their bytes. |
| `CodecResults.ReadsStruct` | kitex_gen/handler/v0_1/k-shot_preview.go:168-177 | Reading a written struct gives it back and takes exactly its bytes, nested structs and lists included. |
| `CodecResults.OrderAndForeignFieldsDoNotMatter` | kitex_gen/handler/v0_1/k-shot_preview.go:36-95 | Two encodings that set the same fields once are read alike whatever their order and the unknown fields between. |
| `CodecResults.ReadStructFits` | kitex_gen/handler/v0_1/k-shot_preview.go:793-1024 | Whatever is read survives the wire: numbers and lengths in range, required fields set, no nil element. |
| `Views.TablesAreWellFormed` | kitex_gen/handler/v0_1/k-shot_preview.go:168-177 | The four tables have distinct positive IDs below 2^15. |
| `WireLayout.TaskLayout` | idl/v0_1/shot_preview.thrift:37-48 | The task view goes out byte for byte as the interface definition has it, field IDs and type codes spelled out, optional fields and nil elements included. |
| `WireLayout.RequiredFieldsAreDemanded` | idl/v0_1/shot_preview.thrift:37-48 | A task view is accepted if and only if its eight required fields are on the wire, whatever the order and whatever is between them. |
| `Views.DecodingUndoesEncoding` | kitex_gen/handler/v0_1/k-shot_preview.go:793-1394 | FastRead undoes FastWrite and takes exactly the written bytes, if and only if lengths and numbers fit 32 bits and no list element is nil. |
| `Views.ReadingIsStable` | kitex_gen/handler/v0_1/k-shot_preview.go:793-1024 | Whatever FastRead accepts, writing it and reading that gives the same view. |
| `Views.TaskReadsInAnyOrder` | kitex_gen/handler/v0_1/k-shot_preview.go:808-1023 | The fields of a view in any order with unknown fields between decode to the view. |
| `CodecLoops.FastWrite` | kitex_gen/handler/v0_1/k-shot_preview.go:1190-1206 | Fills the buffer at the offset with exactly the encoding and nothing else. |
| `CodecLoops.WriteList` | kitex_gen/handler/v0_1/k-shot_preview.go:1254-1266 | Room left for the header, elements, then the header: together exactly the encoding of the list. |
| `CodecLoops.BLength` | kitex_gen/handler/v0_1/k-shot_preview.go:1208-1224 | The lengths added up are exactly the size of the encoding. |
| `CodecLoops.FastRead` | kitex_gen/handler/v0_1/k-shot_preview.go:793-1024 | The loop over headers with its advancing offset computes exactly the read. |
| `CodecLoops.ReadItemsAt` | kitex_gen/handler/v0_1/k-shot_preview.go:1082-1105 | The loop over list elements computes exactly the read. |
| `CodecLoops.WriteThenRead` | kitex_gen/handler/v0_1/k-shot_preview.go:1186-1224 | A view written into a buffer of BLength bytes and read back is the same exactly if it fits. |

## Left out

- Several tasks in one state machine: tasks share only the idempotency index (modelled in `Submissions` and `Repository`) and the flat maps under the runner's mutex; `Switchboard` proves that operations for one task leave the others' entries alone, so `System` follows one task.
- `broadcast`, subscribers and the audit trail: events are sent outside the task lock and dropped on full buffers, so no ordering is decided by the code.
- `Runner.Runner.Submit`: the submission itself is passed as a value, so sharing between its slices and the caller's is not modelled; the heap starts with the task built from it.
- `Runner.Runner.Requeue`: `ListIncomplete` and the loop of Recover over tasks are left out; each task's locked section is modelled, and the unlocked test before it is the step `RecoverCall` of `System`.
- Repository errors inside the objects: `MemoryRepository` never fails; failing repositories are the `ok` flags of `System`.
- Missing invokers and nil receivers: configuration errors that return before any state is touched.
- `newSnapshot` on invoker output: part of the outcome of an invocation, which `System` leaves arbitrary.
- `ShotPreview.StepFailsOnlyOnData`: JSON decoding is a parameter, object keys are matched exactly and the paths are those of IDs that path cleaning does not change.
- Encoding the joined manifests at the end of the fan-out: it fails only on invalid JSON, which the agent invoker has excluded.
- `FanOutNodes`: naming and copying only.
- Polling intervals and time-outs of `waitForRender` and of tool attempts: timers decide when, not what.
- Killing the render process: a kill shows as any process result.
- A `run` function that panics inside the ledger.
- The SQLite repository, migrations, HTTP and RPC handlers, the LLM client, command building, path resolution, credentials and asset stores.
- The other generated structs, argument and result wrappers, and the no-copy writer: the same pattern repeated.
- `Thrift.SkipIsLocal`: the primitives are not in the repository and follow the published protocol, which sets no nesting limit for skipped values.
- `CodecLoops.FastRead`: reads into an empty struct; reading into a struct that already holds values keeps old optional fields and is not modelled. Error texts and the offset returned with an error are not modelled either.
- Allocation of a list of the announced size before its elements are read.
