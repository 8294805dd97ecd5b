# Fishyume engine: verified model

Fishyume's Go engine runs workflows durably: every decision is a file on disk, and a run survives crashes,
restarted controllers and cancellations that race with launches. This project models the engine's hard
parts in Dafny and proves what they guarantee.

- **Run machine** (`RunMachine`, `RunInvariant`, `RunSteps`): one run's files, its controller, the launches
  in flight and the canceller, as interleaved atomic steps. A section under the engine's mutex is one step;
  unlocked reads and calls of the backend are steps of their own. Every durable write can fail, and a crash
  can fall between any two steps or writes, those of a person's action included. The cancellation that is
  taken up again after a restart, and the monitor that takes up the same request beside it, are steps too.
  `RunGuarantees`, `RunCancellation`, `RunCompletion`, `RunProgress`, `RunMeasure` and `RunDependencies` hold
  for every reachable state, `RunUndisturbed` for every run in which no such recovery comes to its end;
  `RunRecovery` says what it settles; `RunCounterexample` and `RunRecovery` have the runs in which a promise
  fails; `RunService` is the engine as a class whose methods take exactly those steps.
- **Scheduler and topology** (`Workflow`, `Scheduler`, `Topology`): what may run, the concurrency limit,
  aggregation, transitive dependents and layers.
- **Actions** (`ActionReplay`, `ActionGuarantees`, `ActionPlans`, `ActionService`, `ActionRecovery`): a
  person's action as a journal around a write-ahead plan, under the run's lease, replayed after crashes
  between any two writes; and start-up, which answers the pending journals of all runs.
- **Context compiler** (`FairShare`, `Utf8Tail`, `ContextContract`, `ContextCompiler`, `ContextGuarantees`,
  `Ordering`): max-min fair byte shares, rune-aligned tails, the greedy optional tier, the validator.
- **Memory catalog** (`MemoryLedger`, `MemoryHistory`, `MemoryCatalog`, `MemoryPaging`): supersession, use
  counts, idempotency receipts, paging.
- **Routing** (`Routing`, `RoutingLedger`): score order, fallbacks, the cumulative cost ledger.
- **Control lease** (`Lease`): acquirers, heartbeats and releases that interleave.

`dafny verify dfyconfig.toml` checks the whole project.

## How the source is abstracted

Files are maps and sequences with atomic writes; the guard or mutex around a section makes it one step.
Identities that are only compared are numbers in the order of their strings, with validity of the text kept
as a flag or a sign; node identities are positions in the topological order. A value stands for its own
SHA-256 hash. Times are integers. Answers of the backend, availability of targets, the clock and faults are
parameters of the steps, and every theorem holds for all of them.

## Where the code does not do what it is for

The code is modelled as it is; where a promise fails, a concrete input is given and the exact condition
under which it holds.

- A canceller that finds an Attempt already concluded counts it as cancelled. After a crash between
  concluding an Attempt and its node, a run can complete as cancelled with an execution that nobody
  confirmed as cancelled (`OrphanAfterCrash`; `NoOrphan` is exact).
- Recovery of a run whose cancellation was requested settles only the first node at work and still completes
  the run (`SecondIsLeftRunning`; `RecoveryLeavesNoneAtWork` and `CompletedMeansDone` are exact).
- Recovery and the monitor of its own controller take up the same cancellation. Recovery writes its failure
  whatever has become of the run, so a run that the monitor completed opens again (`CompletionUndone`;
  `CompletionUndoneIff` is exact). A node that recovery concluded can be turned back to waiting by the
  monitor's refused answer (`ConcludedThenRefused`), and one whose Attempt alone was concluded before a crash
  is passed over by later cancellations and left running (`LeftByCut`). Without a recovery that comes to
  its end none of this happens (`UndisturbedSteps`).
- An Attempt's file is written once. A fault or a crash between that file and its node leaves a file with
  which the node can never be assigned again, so every batch that begins with it fails (`StalledByLeftFile`;
  `ScheduleProgresses` is exact, and `LeftFileIsFinal` says that nothing ever repairs it).
- A retry of a failed node of a completed run that is cut between its first node and the run's file leaves a
  run that is recorded as completed with a node about to start (`CompletedButNotDone`; `CompletedMeansDone`
  is exact, and `UndisturbedCompletion` says that it is the only cause without recovery). With a journal
  the action is finished when it is submitted again (`CutIsPartOfThePlan`, `PartWayIsFinished`); an action
  without an identity has no journal.
- An action's plan left on disk by a crash after the run's file makes every later action that would plan
  changes be declined, because the next submission is answered from the receipt (`PlanLeftBehind`;
  `PlanStaysIff` is exact, and `LeftPlanBlocks` says that it is for good). Only a decision that repeats the
  one recorded on its node still changes the run, without a plan (`OnlyRepeatsPass`; `LeftPlanBlocks` has the
  exact condition), and so does a cancel action, which is not planned either.
- A process that dies while it acts leaves the run's lease behind, and a submission waits only one second for
  it: until the lease expires, the journal is not answered and start-up fails, for all runs
  (`CrashKeepsTheLease`; `ReplayAnswers`, `PartWayIsFinished` and `RecoverSucceedsIff` are exact). A run that
  a live controller holds, and a pending retry that lacks its acknowledgement, make start-up fail as well.
- The compiler trims ASCII white space and the validator trims Unicode white space, so some identities pass
  the first and fail the second (`BlankIdentitySlipsThrough`; `FinalValidationFails` is exact).
- A deletion's mutation identity is forgotten with its receipt and can then delete another record
  (`DeleteIdentityReused`; `ForgottenDeletion` is exact). Creations and supersessions are not affected,
  because the identity of the record they make comes from the mutation.
- The catalog check after a use fails when the clock has gone back before a record's creation
  (`EarlyUseIsCorrupt`; `CorruptMeansEarlyUse` is exact, and `NeverCorrupt` covers every clock that moves on).
- Two catalog models with one target can make the resolver's own decision fail its final check
  (`SharedTargetClashes`; `ResolveIsBestFirst` is exact), and the ledger charges the first model with the
  target, which need not be the one that was selected (`SharedTargetIsOvercharged`; `CostIsTheModels` is
  exact).
- Aggregation would count a running approval as done; no run has one (`CompletedWhenDone`,
  `CompletedMeansDone`).

## Model

| member | source | states |
|---|---|---|
| `RunCancellation.NoOrphan` | wf-engine/internal/run/cancellation.go:111-232 | In every reachable state, for every Attempt that stands as cancelled in its node's file or its own, by whichever cancellation, the canceller's or recovery's, finished or not: it was never passed to Start or had its cancellation confirmed, if and only if it is not one that a canceller found already concluded (the phase test of the poll) without a confirmation; and whatever was found concluded had been reported gone by the backend. |
| `RunCancellation.ReachedSettled` | wf-engine/internal/run/cancellation.go:111-232 | The invariant behind it: through every step, fault and crash, whatever is concluded as cancelled is harmless. |
| `RunCancellation.StepKeepsSettled` | wf-engine/internal/run/cancellation.go:155-202 | Each step of the machine keeps that, also a recording of outcomes that is cut short or in which some targets refused. |
| `RunCancellation.CancellationCompletes` | wf-engine/internal/run/cancellation.go:155-232 | When recording the outcomes completes the run, it is cancelled, every node that was active is now concluded as cancelled, unless its Attempt stood as cancelled before and it was no target; only nodes of that kind are not done. |
| `RunCancellation.PolledHarmless` | wf-engine/internal/run/service.go:1320-1360 | What one unlocked look at a target's Attempt proves: a prepared one was not started and will not be, and one with a handle that was concluded otherwise than by a cancellation was started and reported gone. |
| `RunGuarantees.CompletesWhole` | wf-engine/internal/run/cancellation.go:203-231 | The run is completed if and only if every target is confirmed and none of the writes was lost; then every node is done if and only if no active node was left out of the targets. |
| `RunGuarantees.PreparedIsNeverDispatched` | wf-engine/internal/run/service.go:1912-1932 | An Attempt that is prepared once the cancellation is on disk is never dispatched and never started, whatever launcher holds it and whatever steps, faults and crashes follow. |
| `RunGuarantees.StartsAreBounded` | wf-engine/internal/run/parallel_launch.go:137-205 | In every reachable state each Attempt number was started at most once, and a node's starts never exceed one plus the retries and answers it was given. |
| `RunGuarantees.NeverRelaunched` | wf-engine/internal/run/parallel_launch.go:249-309 | An Attempt on disk that no launcher holds is never handed to a launcher and never started, whatever steps, faults and crashes follow. |
| `RunGuarantees.CrashNeverRestarts` | wf-engine/internal/run/service.go:1530-1582 | After a crash, through any further controllers, every Attempt on disk keeps the number of starts it had. |
| `RunGuarantees.MissingHandleConcludes` | wf-engine/internal/run/reconcile.go:135-158 | An Attempt observed without a handle is concluded, with its node, as indeterminate when both writes succeed, and the backend is not called. |
| `RunCompletion.CompletedMeansDone` | wf-engine/internal/run/service.go:2431-2489 | In every reachable state a completed run has only completed or skipped nodes if and only if no action has stopped between its first node and the run's file, and the cancellation that completed it, if one did, found no active node that it did not settle; actions that are not cut and cancellations that leave no node out have neither; approvals are never running. |
| `RunCompletion.StepKeepsCompletion` | wf-engine/internal/run/aggregation.go:17-79 | Each step keeps that equivalence, the canceller's, recovery's and a cut action's included; aggregation completes a run only when every node is done. |
| `RunCounterexample.OrphanAfterCrash` | wf-engine/internal/run/service.go:2285-2309 | A run of the machine in which the guarantee without its exception fails: a crash between concluding an Attempt and its node makes a later cancellation complete the run with a started execution whose cancellation nobody confirmed. |
| `RunCounterexample.StalledByLeftFile` | wf-engine/internal/run/parallel_launch.go:184-191 | A run of the machine in which progress fails: a fault between an Attempt's file and its node leaves a file with which every further batch, at any limit and with any writes, fails and changes nothing. |
| `RunCounterexample.CompletedButNotDone` | wf-engine/internal/run/service.go:2458-2489 | A run of the machine in which a retry of a failed node is cut after its first write: the run stays completed and its node is ready to start over. |
| `RunSteps.StepKeeps` | wf-engine/internal/run/service.go:1601-1676 | Every step of controller, launcher, canceller, recovery, action, fault and crash keeps the machine's invariant: files agree with the backend's history, with the launches in flight, with what the canceller knows and with what recovery has in its hand. |
| `RunSteps.ReachedInv` | wf-engine/internal/run/service.go:1601-1676 | The invariant holds after any steps in any order. |
| `RunSteps.DecisionLegal` | wf-engine/internal/run/scheduler.go:66-133 | Every write that a decision leads to is legal where it is made, and no node is decided twice. The test that an Attempt's file is new is not part of legality: see `RunMeasure`. |
| `RunSteps.BeginKeeps` | wf-engine/internal/run/service.go:1912-1932 | A launcher dispatches only while no cancellation is on disk, so nothing released as never started is dispatched later. |
| `RunSteps.CancelWritesKeep` | wf-engine/internal/run/cancellation.go:155-232 | Wherever the canceller's writes are cut short the files stay sound, and when none is cut and every target confirmed the run is completed with every node done but the active ones that were no target, which are as they were. |
| `RunSteps.RecoveryWritesKeep` | wf-engine/internal/run/service.go:1383-1434 | The same for recovery's last writes: only the one Attempt in its hand is settled. |
| `RunSteps.AggregateKeeps` | wf-engine/internal/run/aggregation.go:17-79 | Bringing the run's own state up to date completes it only when every node is done. |
| `RunInvariant.EditKeeps` | wf-engine/internal/run/service.go:2092-2309 | Each of the engine's multi-file edits keeps node, Attempt and run files sound wherever its writes are cut short, and touches one node's files only. |
| `RunProgress.CapHolds` | wf-engine/internal/run/scheduler.go:35-65 | In every reachable state the active agents, with those a cancellation may still turn back to active, number no more than the largest effective limit that any batch so far has worked under, the backend's limit being read again for each batch; that is never more than the safety ceiling of 8 and the workflow's limit. |
| `RunProgress.StepWithinLimit` | wf-engine/internal/run/scheduler.go:35-65 | A step that adds to those agents leaves no more of them than the effective limit of its own batch. |
| `RunProgress.SteadyLimit` | wf-engine/internal/run/scheduler.go:164-179 | With a backend that declares one limit throughout, no batch passes it. |
| `RunProgress.StepMoves` | wf-engine/internal/run/parallel_launch.go:19-228 | Without a retry or an answer every step leaves each node alone or moves it forward, and agents become active only where the decision says so; the one exception is a recording that refuses a target whose node is concluded as cancelled. |
| `RunProgress.PhaseChangesAreBounded` | wf-engine/internal/run/service.go:1621-1676 | Without retries and answers the steps that change a phase number at most three for each node, and for each such exception one for each node and itself, whatever faults and crashes happen; which steps do is stated by `RunMeasure`. |
| `RunProgress.OnlyRecoveryRevives` | wf-engine/internal/run/cancellation.go:165-202 | The exception needs a recovery that has come to its end: without one it never happens, and the bound is three for each node. |
| `RunMeasure.BatchProgresses` | wf-engine/internal/run/parallel_launch.go:60-205 | A batch with something to do strictly lowers the work that is left if and only if its first edit reaches its node. |
| `RunMeasure.ScheduleProgresses` | wf-engine/internal/run/parallel_launch.go:184-205 | In every sound idle state that may change, with a plan, work left, nothing running or waiting and two writes to go, scheduling strictly lowers the work if and only if no file of a next Attempt stands where the batch begins by assigning. |
| `RunMeasure.SettleProgresses` | wf-engine/internal/run/reconcile.go:53-115 | Settling an observation strictly lowers the work if and only if it concludes its Attempt or begins a wait, and the node's write succeeds. |
| `RunMeasure.ResolveProgresses` | wf-engine/internal/run/parallel_launch.go:260-281 | Recording a failed launch strictly lowers the work if and only if the node's write succeeds and the node was running. |
| `RunMeasure.LeftFileIsFinal` | wf-engine/internal/store/json_store.go:288-302 | Over all later steps, retries and answers included, such a file stays, its node never gets past the Attempt it is on, and the Attempt in the file is never started. |
| `RunMeasure.LeftFileStalls` | wf-engine/internal/run/parallel_launch.go:184-191 | A batch that begins by assigning that node changes nothing on disk and fails, whatever its writes. |
| `RunDependencies.DependenciesHold` | wf-engine/internal/run/scheduler.go:66-124 | In every run without retries in which no cancellation turns a concluded node back or leaves an active one behind, after every step, a node that is ready, running, waiting, completed or skipped has all its dependencies completed or skipped. |
| `RunDependencies.AnswerResetsNothing` | wf-engine/internal/run/service.go:2375-2399 | So the downstream reset that an answer plans is empty: nothing below a waiting node has left pending. |
| `RunDependencies.SchedulePending` | wf-engine/internal/run/scheduler.go:66-124 | Scheduling changes a pending node only when its dependencies are done. |
| `RunDependencies.DropsInOrder` | wf-engine/internal/run/cancellation.go:217-226 | A cancellation drops nodes in topological order, so everything before a dropped node is done even when the writes are cut short. |
| `RunUndisturbed.UndisturbedSteps` | wf-engine/internal/run/cancellation.go:61-109 | In every such run no cancellation leaves an active node out of its targets, and none refuses a node that is concluded. |
| `RunUndisturbed.UndisturbedCompletion` | wf-engine/internal/run/service.go:2431-2489 | In every run without such a recovery, a completed run has only completed or skipped nodes if and only if no action has stopped between its first node and the run's file. |
| `RunUndisturbed.UndisturbedDependencies` | wf-engine/internal/run/scheduler.go:66-124 | In every run without retries and without a recovery of a cancelled run that comes to its end, dependencies hold after every step. |
| `RunRecovery.OnlyTheFirstIsCancelled` | wf-engine/internal/run/service.go:1263-1434 | In every reachable state: when recovery completes the run it has settled the one Attempt in its hand and dropped what had not begun, and every other active node, and its Attempt, is exactly as it was. |
| `RunRecovery.RecoveryLeavesNoneAtWork` | wf-engine/internal/run/service.go:1296-1318 | In every reachable state: when recovery completes the run, no node is left at work if and only if none but the one in its hand was at work before. |
| `RunRecovery.SecondIsLeftRunning` | wf-engine/internal/run/service.go:1383-1434 | A run of the machine with two agents at work when the cancelled run is taken up again: it completes as cancelled with the second execution started, still running, and its cancellation never confirmed. |
| `RunRecovery.CompletionUndoneIff` | wf-engine/internal/run/service.go:1362-1381 | In every sound state a completed run opens again if and only if an action on it goes through all its writes, or a recovery that has given up writes its failure. |
| `RunRecovery.CompletionUndone` | wf-engine/internal/run/service.go:1362-1381 | A run of the machine in which the monitor completes the run and recovery's own failure, written whatever has become of the run, opens it again. |
| `RunRecovery.ConcludedThenRefused` | wf-engine/internal/run/cancellation.go:165-202 | A run of the machine in which recovery and the monitor ask for the same Attempt: recovery's confirmed node is turned back to waiting by the monitor's refused answer. |
| `RunRecovery.LeftByCut` | wf-engine/internal/run/service.go:1393-1418 | A run of the machine in which recovery is cut between its Attempt and the node: the next cancellation passes over that Attempt and completes the run with the node still running. |
| `RunService.Engine.constructor` | wf-engine/internal/run/service.go:530-617 | A started run has every node pending, no Attempts and no controller, and satisfies the invariant. |
| `RunService.Engine.StartController` | wf-engine/internal/run/service.go:758-804 | A controller starts only on an open run with no cancellation requested; a rewrite that is asked for puts the run back to running, and a recovered run that was not paused is left as it is. |
| `RunService.Engine.PauseOnError` | wf-engine/internal/run/service.go:2774-2787 | After an error the run waits, or is paused after a lost heartbeat, unless it may no longer be changed. |
| `RunService.Engine.FindActiveAttempts` | wf-engine/internal/run/reconcile.go:24-32 | The current Attempts of exactly the active agents, in order. |
| `RunService.Engine.StartReconcile` | wf-engine/internal/run/service.go:1635-1641 | Ends the controller of a completed or cancelled run, or begins observing the active Attempts. |
| `RunService.Engine.ObserveAttempt` | wf-engine/internal/run/reconcile.go:135-188 | One unlocked observation: settled questions, missing handles and an unavailable driver are recognised without asking the backend. |
| `RunService.Engine.SettleNext` | wf-engine/internal/run/reconcile.go:53-115 | Settles one observation under the mutex, unless the run may no longer be changed. |
| `RunService.Engine.WriteVerdict` | wf-engine/internal/run/reconcile.go:66-114 | Writes what one observation means for its Attempt and node. |
| `RunService.Engine.FinishResult` | wf-engine/internal/run/service.go:2092-2180 | Completes node, then Attempt, then run, stopping at the first failing write. |
| `RunService.Engine.FinishIndeterminate` | wf-engine/internal/run/service.go:2285-2309 | Concludes the Attempt before its node, stopping at the first failing write. |
| `RunService.Engine.HoldWaiting` | wf-engine/internal/run/service.go:2190-2283 | Leaves node and Attempt waiting, and brings the run's state up to date. |
| `RunService.Engine.ScheduleBatch` | wf-engine/internal/run/parallel_launch.go:19-228 | One batch: skips, approvals and assignments written one by one, launches queued only when every write succeeded, otherwise the run aggregated. |
| `RunService.Engine.WriteDecision` | wf-engine/internal/run/parallel_launch.go:60-205 | Performs a decision's lists in their order, stopping at the first failing write. |
| `RunService.Engine.AssignAgent` | wf-engine/internal/run/parallel_launch.go:184-203 | Creates the Attempt once, then the running node, then the run. |
| `RunService.Engine.BeginBackendLaunch` | wf-engine/internal/run/service.go:1912-1932 | Marks the Attempt dispatching if the run may still launch, otherwise refuses; says which. |
| `RunService.Engine.PersistLaunch` | wf-engine/internal/run/service.go:1934-1968 | Saves the handle, or that there is none, and never overwrites a saved handle by its absence. |
| `RunService.Engine.RecordLaunch` | wf-engine/internal/run/parallel_launch.go:260-281 | Once all launchers have joined, a failed launch is concluded as indeterminate, or left waiting when it has a handle. |
| `RunService.Engine.MarkCancellation` | wf-engine/internal/run/cancellation.go:61-109 | Puts the cancellation on disk and lists the Attempts it must settle in one section; the controller stops although the marking failed. |
| `RunService.Engine.FindTargets` | wf-engine/internal/run/cancellation.go:81-100 | The active Attempts that are not already cancelled, in order. |
| `RunService.Engine.LookForHandle` | wf-engine/internal/run/service.go:1320-1360 | One unlocked look at a target: concluded, with a handle, never started, or to be looked at again until the grace ends. |
| `RunService.Engine.RecordAnswers` | wf-engine/internal/run/cancellation.go:165-202 | Concludes each confirmed target and leaves the others waiting, in order. |
| `RunService.Engine.SkipLeftovers` | wf-engine/internal/run/cancellation.go:217-226 | Skips, in order, every node that has not started and every waiting approval. |
| `RunService.Engine.ApplyOutcomes` | wf-engine/internal/run/cancellation.go:155-232 | Records the answers; the run completes as cancelled only with every target confirmed. |
| `RunService.Engine.StartRecoveryController` | wf-engine/internal/run/service.go:1530-1582 | Takes up the cancellation of an open run that nobody works on, unless it waits for an approval; a paused run is put back to running first. |
| `RunService.Engine.HandleCancellationRequest` | wf-engine/internal/run/service.go:1263-1318 | Marks the run again and picks the first node at work, or none on a completed run; a lost mark ends the controller. |
| `RunService.Engine.FindFirstAtWork` | wf-engine/internal/run/service.go:1312-1317 | The loop finds the first node that is running or waiting on an Attempt, in order. |
| `RunService.Engine.LookAgain` | wf-engine/internal/run/service.go:1320-1360 | One unlocked look at the Attempt in hand: cancelled already, to be asked for, never started, to be looked at again, or given up. |
| `RunService.Engine.ConcludeCancelled` | wf-engine/internal/run/service.go:1393-1418 | Concludes one Attempt as cancelled, unless it is, before its node. |
| `RunService.Engine.FinalizeCancellation` | wf-engine/internal/run/service.go:1383-1434 | Settles the Attempt in hand, skips what has not begun and completes the run, or records the failure; the controller ends either way. |
| `RunService.Engine.ApplyAction` | wf-engine/internal/run/service.go:2311-2489 | A decision, retry or answer is accepted exactly when it fits the node, and then writes the target, the skipped nodes below it and the run, one file at a time, cut short at any of them; a decision that repeats the recorded one, with the same reason, writes the run's file only, and nothing on a completed run. |
| `RunService.Engine.ResetDownstream` | wf-engine/internal/run/service.go:2620-2653 | Resets exactly the skipped nodes below the target, in order, stopping at the first failing write. |
| `Scheduler.LimitIsLargest` | wf-engine/internal/run/scheduler.go:164-179 | The effective concurrency is the largest number within the ceiling, the workflow's limit and a positive backend limit. |
| `Scheduler.PlanSchedule` | wf-engine/internal/run/scheduler.go:28-133 | The scheduling loop computes the specified plan, or the first error. |
| `Scheduler.DecisionMeaning` | wf-engine/internal/run/scheduler.go:66-133 | A decision lists each node under its own fate and no other, launches the first agents that fit, leaves capacity unused only when no agent is left, and never passes the limit. |
| `Scheduler.NeverStalls` | wf-engine/internal/run/scheduler.go:66-133 | With work left and nothing running or waiting, a decision is never empty. |
| `Scheduler.PlanFails` | wf-engine/internal/run/scheduler.go:28-133 | Planning fails if and only if a limit is out of range, or some node that is due has a condition that cannot be evaluated and is not excused by a failed dependency together with a missing result. |
| `Scheduler.CheckUpstream` | wf-engine/internal/run/scheduler.go:76-89 | Whether a node's dependencies are done, and whether one of them did not succeed. |
| `Scheduler.Survey` | wf-engine/internal/run/scheduler.go:45-64 | Counts the active agents and finds whether the failure policy stops further work. |
| `Scheduler.AggregateRunState` | wf-engine/internal/run/aggregation.go:17-79 | The counting loop computes the specified run state. |
| `Scheduler.CompletedWhenDone` | wf-engine/internal/run/aggregation.go:17-79 | Aggregation reports completion if and only if every node is done or is a running approval, and gives a conclusion exactly then. |
| `Scheduler.Conclude` | wf-engine/internal/run/parallel_launch.go:230-247 | The conclusion loop computes the specified conclusion of the nodes. |
| `Workflow.BrokenNeedsMissingResult` | wf-engine/internal/run/scheduler.go:135-151 | Evaluation that stops early never invents an error: a condition over fields that are there breaks only because a result is missing. |
| `Topology.SweepDownstream` | wf-engine/internal/run/service.go:2620-2653 | One sweep of the topological order finds exactly the transitive dependents. |
| `Topology.AncestorSet` | wf-engine/internal/run/service.go:2826-2839 | The recursive search finds exactly the transitive dependencies. |
| `Topology.SweepIsConverse` | wf-engine/internal/run/service.go:2620-2653 | b is below a for the sweep if and only if a is above b for the search. |
| `Topology.DependenceIsChains` | wf-engine/internal/run/service.go:2826-2839 | Dependence holds exactly when a chain of direct dependencies exists. |
| `Topology.TopologyProjection` | wf-engine/internal/application/service.go:926-949 | The layering loop puts each node in the layer of its depth, keeps topological order within a layer, and leaves no layer empty. |
| `Topology.DepthIsLongestChain` | wf-engine/internal/application/service.go:926-949 | A node's layer number is the length of its longest dependency chain. |
| `Topology.LayersAreIndependent` | wf-engine/internal/application/service.go:926-949 | A dependent is always in a later layer, so no path joins two nodes of one layer. |
| `ActionGuarantees.ExactlyOnce` | wf-engine/internal/application/service.go:493-563 | However often a request is submitted and wherever each submission crashes, it is accepted at most once, all replies it ever gets are the same, and a reply says whether it was accepted; the one success that is no acceptance is a decision repeated on a completed run, answered with the run as it is. |
| `ActionGuarantees.AcceptedWhole` | wf-engine/internal/run/service.go:2403-2489 | When a submission gets a request accepted, every planned node has its planned value and nothing else changed, or no node at all if it repeats a recorded decision; the version is exactly one more than expected, and the receipt is there. |
| `ActionGuarantees.ReplayAnswers` | wf-engine/internal/application/service.go:518-563 | After any crashes, one submission that does not crash gets a reply if and only if it is not stuck: not to be acted on with the run's lease held, and no retry that lacks its acknowledgement. When it is stuck nothing is written and the error says which; the source answers both as internal errors and leaves the journal open. |
| `ActionGuarantees.SinceOk` | wf-engine/internal/application/service.go:493-563 | Every history of submissions, crashes and activity of others keeps the request untouched, partly applied along its own plan, or accepted, with one acceptance at most and every reply journalled. |
| `ActionGuarantees.SubmitKeeps` | wf-engine/internal/application/service.go:493-563 | From any partial state, one submission, cut short at any write, leaves the request untouched, partly applied along its own plan, or accepted, and changes the version only by accepting. |
| `ActionGuarantees.ContinueKeeps` | wf-engine/internal/application/service.go:518-563 | The section behind a begun journal keeps that, answers when it does not crash and is not stuck, and writes nothing when it is. |
| `ActionGuarantees.PlanIsTheAction` | wf-engine/internal/run/service.go:2311-2416 | A write-ahead plan applied in full is the action: the target changed as asked and exactly the skipped nodes below it reset. |
| `ActionGuarantees.RestApplies` | wf-engine/internal/run/service.go:2458-2489 | From any point of a plan, going on finishes it or crashes at another point of it; no mutation is lost or made twice. |
| `ActionGuarantees.CountedIsSkipped` | wf-engine/internal/run/service.go:2458-2470 | Replay passes over exactly what the plan counts as applied. |
| `ActionGuarantees.ResumePlans` | wf-engine/internal/run/service.go:1061-1108 | Acting on an untouched request changes nothing, or repeats a recorded decision with no node and no plan, or plans and applies the action. |
| `ActionPlans.AcceptedExactlyWhen` | wf-engine/internal/run/service.go:2311-2489 | At every point of every history: a submission gets the request accepted if and only if it can be, the run's lease is granted and its writes reach the run's file; its plan then stays on disk if and only if the writes run out right there, and a repeated decision leaves nodes and plans as they were. |
| `ActionPlans.PlanStaysIff` | wf-engine/internal/application/service.go:512-517 | Over every history of submissions, crashes and activity of others: an accepted request's plan is on disk if and only if one of its submissions was cut between the run's file and the plan's removal. So it then stays through everything that follows, and is gone for good in every other case. |
| `ActionPlans.LeftPlanBlocks` | wf-engine/internal/run/service.go:2418-2429 | Once such a plan is left, whatever else happens, a cancel action included, it stays, and a submission of any request changes the run if and only if it repeats the decision recorded on its node at the current version of a run that is not completed, is neither answered nor bound, gets the lease and its writes reach the run's file; it then changes the run's file only. Every other new request is refused or declined, or is such a decision on a completed run. |
| `ActionPlans.CutBlocksTheRun` | wf-engine/internal/run/service.go:2330-2443 | The two together: after a submission cut at the removal the only actions accepted on the run are repeated decisions, exactly under that condition. |
| `ActionPlans.OnlyRepeatsPass` | wf-engine/internal/run/service.go:2330-2338 | The input: two approvals, the plan of the first left behind and the run waiting for the second: approving the first again is accepted, approving the second is declined. |
| `ActionPlans.SubmitPays` | wf-engine/internal/run/service.go:2311-2489 | One submission from any standing: it changes nothing of the run, or is accepted exactly when it has the lease and its writes cover the price from the journal to the run's file, which for a repeated decision is the journal and the run. |
| `ActionPlans.RestCosts` | wf-engine/internal/run/service.go:2458-2489 | Going on with a plan takes two writes for each mutation not yet applied and one for a mutation applied but not counted, and gets to its end if and only if they are left. |
| `ActionPlans.PartWayIsFinished` | wf-engine/internal/run/service.go:2403-2443 | An action that stopped part-way is finished by one submission that does not crash if and only if the run's lease is granted: nodes as by the whole action, run running, no plan left, request answered; otherwise nothing is written. |
| `ActionPlans.CutIsPartOfThePlan` | wf-engine/internal/run/service.go:2458-2489 | Wherever the node writes of an action are cut in the run machine, the nodes are those of a prefix of its plan, so a journalled action can be taken up from there. |
| `ActionPlans.PlanLeftBehind` | wf-engine/internal/application/service.go:512-517 | A concrete plan left by a crash after the run's file and before the plan's removal: the next submission is answered from the receipt and does not look at the plan. |
| `ActionRecovery.CrashKeepsTheLease` | wf-engine/internal/run/service.go:1584-1597 | A process that dies while it acts leaves its lease: any submission of the request that starts more than the one-second wait before the expiry, 15 seconds after the last heartbeat, writes nothing and gets no answer. |
| `ActionRecovery.LeaseInPlace` | wf-engine/internal/store/lease.go:84-94 | While nobody touches the record in place, the lease is granted if and only if a try samples the clock at or after its expiry. |
| `ActionRecovery.SubmitAnswers` | wf-engine/internal/application/service.go:474-563 | On any files, sound or not, a crash-free submission of a pending request gets an answer, or stays open if and only if it is stuck. |
| `ActionRecovery.RecoverSucceedsIff` | wf-engine/internal/application/service.go:594-627 | Start-up over the pending journals of all runs succeeds if and only if none is stuck at its turn: each lease that is needed gives way, and no retry lacks its acknowledgement. |
| `ActionRecovery.RecoverDistinctRuns` | wf-engine/internal/application/service.go:594-627 | With at most one pending journal for each run, that is if and only if none is stuck when start-up begins. |
| `ActionRecovery.RecoverAnswersAll` | wf-engine/internal/application/service.go:594-627 | A start-up that succeeds has answered every pending journal for good, but one whose identity the run had bound to another request. |
| `ActionRecovery.RecoverPending` | wf-engine/internal/application/service.go:594-627 | The start-up loop submits the records in order, each on its run, and stops at the first that stays open. |
| `ActionReplay.NewestSurvives` | wf-engine/internal/run/service.go:2509-2527 | Evicting receipts beyond 256 keeps the newest one, changes none, and leaves no more than 256. |
| `ActionService.EvictReceipts` | wf-engine/internal/run/service.go:2509-2527 | The eviction loop removes the oldest receipts, by version and then identity, until 256 are left. |
| `ActionService.Service.MakePlan` | wf-engine/internal/run/service.go:2311-2416 | Lists the target and every skipped node below it, as they are and as they will be. |
| `ActionService.Service.ApplyPlan` | wf-engine/internal/run/service.go:2458-2489 | Writes each mutation that is not yet applied and counts it, stopping at a crash or at a node that fits neither side. |
| `ActionService.Service.FinalizeAction` | wf-engine/internal/run/service.go:2431-2443 | One version more, the receipt, and then no more plan. |
| `ActionService.Service.ResumeAction` | wf-engine/internal/run/service.go:1043-1108 | Takes the run's lease or stops; then replays the plan on disk, repeats a recorded decision without one, or checks the request, makes a plan and applies it. |
| `ActionService.Service.AcquireLease` | wf-engine/internal/run/service.go:1584-1597 | The retry loop gets the lease if and only if one of its tries finds none or an expired one. |
| `ActionService.Service.RecordReply` | wf-engine/internal/application/service.go:654-673 | Marks the journal with the reply, and then commits it. |
| `ActionService.Service.RunAction` | wf-engine/internal/application/service.go:474-564 | One submission computes what the specification of a submission says, at every point where it can crash. |
| `FairShare.BalancedAlloc` | wf-engine/internal/contextcompiler/compiler_v2.go:223-312 | The in-place allocation is max-min fair: within each size, summing to the smaller of budget and total size, and no cut component more than one byte behind any other, with spare bytes going to earlier ones. |
| `FairShare.LeftoverBelowOpen` | wf-engine/internal/contextcompiler/compiler_v2.go:266-310 | After the search the leftover is smaller than the number of unsaturated components, so the proportional branch is unreachable and the loop ends. |
| `FairShare.WaterLevel` | wf-engine/internal/contextcompiler/compiler_v2.go:236-256 | The binary search finds the highest affordable level. |
| `FairShare.FairIsUnique` | wf-engine/internal/contextcompiler/compiler_v2.go:223-312 | The fairness conditions leave exactly one allocation. |
| `FairShare.NoneFairer` | wf-engine/internal/contextcompiler/compiler_v2.go:223-312 | Giving any component more takes bytes from one that had at most one more: no affordable allocation is fairer. |
| `FairShare.FastIsPour` | wf-engine/internal/contextcompiler/compiler_v2.go:223-312 | The binary search gives what pouring the budget byte by byte into the least filled component gives. |
| `Utf8Tail.ValidTail` | wf-engine/internal/contextcompiler/compiler_v2.go:314-327 | The truncation loop returns the specified tail. |
| `Utf8Tail.TailIsLongestValid` | wf-engine/internal/contextcompiler/compiler_v2.go:314-327 | The tail of valid UTF-8 (section 4 of RFC 3629) is valid, fits, is the longest valid suffix that fits, and wastes at most three bytes of its share. |
| `ContextContract.ValidateContextEnvelope` | wf-engine/internal/contextcompiler/contract_v2.go:286-352 | The validator's loops compute the specified check. |
| `ContextContract.ValidationMeaning` | wf-engine/internal/contextcompiler/contract_v2.go:286-352 | An envelope passes if and only if it is complete, strictly canonical in components and omissions, and within every tier's budget and the total. |
| `ContextCompiler.CheckInput` | wf-engine/internal/contextcompiler/compiler_v2.go:35-87 | The input loops compute the specified check. |
| `ContextCompiler.InputMeaning` | wf-engine/internal/contextcompiler/compiler_v2.go:35-87 | The input passes if and only if every part is sound and no identity repeats. |
| `ContextCompiler.Allocate` | wf-engine/internal/contextcompiler/compiler_v2.go:130-208 | The allocation steps, with their two sorts of the omissions, compute the specified allocation. |
| `ContextCompiler.CompileContext` | wf-engine/internal/contextcompiler/compiler_v2.go:35-111 | Compiling computes the specified compilation or its error. |
| `ContextCompiler.AllottedIds` | wf-engine/internal/contextcompiler/compiler_v2.go:130-208 | Every source ends exactly once among the components or the omissions, never in both and never twice. |
| `ContextGuarantees.AllocationMembers` | wf-engine/internal/contextcompiler/compiler_v2.go:130-208 | Nothing is invented: components and omissions come from sources, and required components are kept exactly as they came. |
| `ContextGuarantees.ImportantOutcome` | wf-engine/internal/contextcompiler/compiler_v2.go:164-186 | Every important source gets its share of the max-min fair allocation: the longest valid suffix within it is included, losing at most three further bytes, or the source is recorded as omitted. |
| `ContextGuarantees.OptionalOutcome` | wf-engine/internal/contextcompiler/compiler_v2.go:187-198 | An optional record is taken, whole, if and only if it fits after the records taken before it. |
| `ContextGuarantees.AllocationWithinBudget` | wf-engine/internal/contextcompiler/compiler_v2.go:130-208 | Every tier, and the total, stays within its budget. |
| `ContextGuarantees.AllocationCanonical` | wf-engine/internal/contextcompiler/compiler_v2.go:199-208 | The components are in strictly canonical order without repetition. |
| `ContextGuarantees.FinalValidationFails` | wf-engine/internal/contextcompiler/compiler_v2.go:88-111 | The compiler refines the validator: for an input that passes the compiler's checks and whose required tier fits, the final validation fails if and only if there are too many components or memory records, no node task, or an identity blank only in the Unicode sense. |
| `ContextGuarantees.CompilationFails` | wf-engine/internal/contextcompiler/compiler_v2.go:35-111 | Exactly when compiling a checked input fails. |
| `ContextGuarantees.BlankIdentitySlipsThrough` | wf-engine/internal/contextcompiler/compiler_v2.go:329-337 | A concrete identity that passes the compiler's ASCII trim and fails the validator's Unicode trim. |
| `ContextGuarantees.OrderIndependent` | wf-engine/internal/contextcompiler/compiler_v2.go:88-110 | Permuting the resolved components and omissions of an input that passes the input check gives the identical envelope or error; one that fails it fails in every order, though the first error reported may be another. |
| `Ordering.SortCanonical` | wf-engine/internal/contextcompiler/compiler_v2.go:142-157 | Sorting by a strict order forgets the order of its input. |
| `MemoryHistory.UsesAreConserved` | wf-engine/internal/store/memory_catalog.go:337-379 | In every history a record's use count is the number of accepted, not replayed uses that name it, and never passes a positive limit. |
| `MemoryHistory.CheckFailsOnlyForEarlyUse` | wf-engine/internal/store/memory_catalog.go:592-670 | The check after a change fails if and only if a record is used at a time before its own creation. |
| `MemoryHistory.CorruptMeansEarlyUse` | wf-engine/internal/store/memory_catalog.go:454-493 | In every reachable catalog a mutation is answered as corrupt if and only if it is a new use of records that may all be used, one of which was made later than now. |
| `MemoryHistory.NeverCorrupt` | wf-engine/internal/store/memory_catalog.go:454-493 | With a clock that does not go back, no mutation of any history is answered as corrupt. |
| `MemoryHistory.EarlyUseIsCorrupt` | wf-engine/internal/store/memory_catalog.go:337-379 | A concrete history: a note is made at time 1 and its use at time 0 is answered as corrupt. |
| `MemoryHistory.StatesMoveOn` | wf-engine/internal/store/memory_catalog.go:254-332 | Records are never removed, keep what they supersede, and only move from active to superseded to deleted, or from active to deleted. |
| `MemoryHistory.SupersessionIsForest` | wf-engine/internal/store/memory_catalog.go:254-305 | Each record is superseded by at most one other, which was made at a strictly later revision, and what is superseded exists and is not active. |
| `MemoryHistory.MakingHappensOnce` | wf-engine/internal/store/memory_catalog.go:853-856 | A mutation identity makes at most one record by each operation, however long ago its receipt was forgotten. |
| `MemoryHistory.DeletingHappensOnce` | wf-engine/internal/store/memory_catalog.go:307-332 | A record is deleted at most once. |
| `MemoryHistory.DeleteIdentityReused` | wf-engine/internal/store/memory_catalog.go:454-493 | A concrete history in which one mutation identity deletes two records, after 4096 later mutations have pushed its receipt out. |
| `MemoryHistory.ForgottenDeletion` | wf-engine/internal/store/memory_catalog.go:307-332 | A forgotten deletion identity takes effect again if and only if the record it now names exists and is not deleted. |
| `MemoryHistory.RecentMutationReplays` | wf-engine/internal/store/memory_catalog.go:464-471 | Within the window of 4096 receipts a mutation is only replayed, with its own answer, and refused when bound to another request. |
| `MemoryHistory.WindowOk` | wf-engine/internal/store/memory_catalog.go:479-482 | Forgetting the oldest receipts keeps the rest of the catalog check. |
| `MemoryCatalog.FindRecord` | wf-engine/internal/store/memory_catalog.go:836-842 | Binary search finds the record of an identity if and only if there is one. |
| `MemoryCatalog.InsertRecord` | wf-engine/internal/store/memory_catalog.go:248-249 | Adds a record and restores identity order; the list then stands for the map with that record added. |
| `MemoryCatalog.CreateOn` | wf-engine/internal/store/memory_catalog.go:231-252 | Creation on the sorted list is creation on the map it stands for. |
| `MemoryCatalog.SupersedeOn` | wf-engine/internal/store/memory_catalog.go:254-305 | Supersession on the sorted list is supersession on the map, and refuses the first bad target. |
| `MemoryCatalog.DeleteOn` | wf-engine/internal/store/memory_catalog.go:307-332 | Deletion on the sorted list is deletion on the map. |
| `MemoryCatalog.ConsumeOn` | wf-engine/internal/store/memory_catalog.go:337-379 | Use on the sorted list is use on the map, and refuses the first record that cannot be used. |
| `MemoryCatalog.CheckRecords` | wf-engine/internal/store/memory_catalog.go:602-616 | The records' part of the catalog check. |
| `MemoryCatalog.CheckReceipts` | wf-engine/internal/store/memory_catalog.go:617-670 | The receipts' part of the catalog check. |
| `MemoryCatalog.Catalog.MutateMemory` | wf-engine/internal/store/memory_catalog.go:454-493 | One mutation of the stored catalog is the specified mutation: replayed, refused, or applied to a copy and committed only after the whole check. |
| `MemoryPaging.ListMemory` | wf-engine/internal/store/memory_catalog.go:403-452 | The listing loops compute the specified page or refusal. |
| `MemoryPaging.PagingIsLossless` | wf-engine/internal/store/memory_catalog.go:403-452 | At a fixed revision and filter, following the cursors with any limits shows exactly the wanted records, each once and in order, and ends. |
| `MemoryPaging.MatchingIsComplete` | wf-engine/internal/store/memory_catalog.go:432-437 | The wanted records are exactly those of the catalog that the filter accepts, in identity order. |
| `MemoryPaging.PageStep` | wf-engine/internal/store/memory_catalog.go:432-449 | A page shows the first matches, and its cursor stands exactly before the remaining ones. |
| `Routing.ResolveV1` | wf-engine/internal/routing/resolver.go:18-88 | Resolving computes the specified decision or the first error. |
| `Routing.FindEligible` | wf-engine/internal/routing/resolver.go:124-158 | The loop collects the specified eligible models with their scores. |
| `Routing.RankingIsTheOrder` | wf-engine/internal/routing/resolver.go:95-158 | The ranking is the one strict score order of exactly the models that can serve the requirement within the budget. |
| `Routing.ResolveIsBestFirst` | wf-engine/internal/routing/resolver.go:18-88 | Resolving succeeds if and only if the request is sound, some model can serve it, and no kept fallback repeats the selected target; the route is then the first at most nine targets in score order, one when fallback is disabled; with distinct targets a clash is impossible and the route has no repetition. |
| `Routing.ProposalFails` | wf-engine/internal/routing/contract.go:343-378 | The final validation finds fault with a proposal if and only if a kept fallback repeats the selected target. |
| `Routing.ChecksMeanContracts` | wf-engine/internal/routing/contract.go:220-378 | The catalog, requirement and decision checks find no fault if and only if the contracts hold. |
| `Routing.Restricted` | wf-engine/internal/routing/resolver.go:168-179 | The restricted budget exceeds neither the requirement nor the grant, and is itself a valid grant. |
| `Routing.AdvanceFails` | wf-engine/internal/routing/accounting.go:84-103 | A sound decision with a fallback fails to advance if and only if that fallback is named again or its reason no longer fits; otherwise the route loses exactly its first target. |
| `Routing.FallbacksAreVisitedOnce` | wf-engine/internal/routing/accounting.go:84-103 | Advancing again and again visits every fallback once, in order, and stops after the last one. |
| `RoutingLedger.RoutingCostBeforeAttempt` | wf-engine/internal/run/routing.go:159-208 | The loop over the Attempts computes the specified sum or its first error. |
| `RoutingLedger.PrepareAttemptRouting` | wf-engine/internal/run/routing.go:84-157 | The probing loop and the choice of route compute the specified preparation. |
| `RoutingLedger.LedgerIsExact` | wf-engine/internal/run/routing.go:84-157 | In every history of launches each reservation is its target's catalog cost, its cumulative cost is the sum of all reservations up to it and within its decision's budget, its route is a fresh route with as many targets given up as its index says, and index and remaining fallbacks never pass eight. |
| `RoutingLedger.HistoryIsAccepted` | wf-engine/internal/run/routing.go:159-208 | The ledger accepts an exact history if and only if its catalogs are known, and then answers the sum of the reservations before the Attempt asked about. |
| `RoutingLedger.PrepareFailsOverBudget` | wf-engine/internal/routing/accounting.go:8-38 | Once a route is chosen and its catalogs are known, the next Attempt is refused if and only if what was spent and what the route costs pass its budget. |
| `RoutingLedger.ReserveFails` | wf-engine/internal/routing/accounting.go:8-38 | Reserving for a sound decision fails if and only if the budget cannot cover it. |
| `RoutingLedger.LaunchKeeps` | wf-engine/internal/run/routing.go:84-157 | Every launch keeps the ledger exact. |
| `RoutingLedger.CostIsTheModels` | wf-engine/internal/routing/accounting.go:70-80 | Every model of a catalog is charged at its own cost if and only if any two of its models with one target have the same cost. |
| `RoutingLedger.SharedTargetClashes` | wf-engine/internal/routing/resolver.go:60-88 | A concrete catalog of two models with one target, and a sound request with fallback that both can serve: resolving fails its own final check. |
| `RoutingLedger.SharedTargetIsOvercharged` | wf-engine/internal/routing/accounting.go:70-80 | The same catalog without fallback: the model of cost 1 is selected, its target is charged at 100, and the reservation fails. |
| `RoutingLedger.ChosenIsTraced` | wf-engine/internal/run/routing.go:104-135 | A chosen route is fresh, that of the Attempt before, or its next fallback. |
| `Lease.LeaseFile.Acquire` | wf-engine/internal/store/lease.go:65-114 | The lease is taken if and only if the record gives way and no crash falls before the new one; otherwise the old record stays, or none is left by a crash. |
| `Lease.Handle.Owns` | wf-engine/internal/store/lease.go:124-136 | Whether the record names this owner and has not expired. |
| `Lease.Handle.Bound` | wf-engine/internal/store/lease.go:138-150 | Whether the record names this owner. |
| `Lease.Handle.HeartbeatGuarded` | wf-engine/internal/store/lease.go:167-185 | Extends the record if and only if it still names this owner; otherwise nothing changes. |
| `Lease.Handle.Release` | wf-engine/internal/store/lease.go:212-230 | Removes the record if and only if it names this owner. |
| `Lease.OwnerChangesOnlyWhen` | wf-engine/internal/store/lease.go:65-114 | In every interleaving an owner's record goes away only by its own release, after real expiry, or, on the recovery path, after its process has ended. |
| `Lease.StaleClockIsConservative` | wf-engine/internal/store/lease.go:76-94 | A clock sampled earlier takes over no lease that a later sample would not, and differs only when the record expires in between. |
| `Lease.DisplacedIsPowerless` | wf-engine/internal/store/lease.go:152-185 | A displaced owner never gets the record back, and none of its steps changes the record in its place, whatever its first unguarded read saw. |
| `Lease.OneOwner` | wf-engine/internal/store/lease.go:124-150 | At most one handle owns the lease at any moment. |
| `Lease.HeartbeatExtends` | wf-engine/internal/store/lease.go:167-185 | A heartbeat never shortens a lease. |
| `Lease.KeptLeaseIsKept` | wf-engine/internal/store/lease.go:65-114 | A lease whose process lives, which does not expire and is not released, is taken by no competitor, however steps interleave. |
| `Lease.ExpiredLeaseIsTaken` | wf-engine/internal/store/lease.go:65-114 | An expired lease, or on the recovery path one of an ended process, is taken by the next acquirer. |

## Left out

- Files, fsync, atomic rename, operating-system locks, processes, sockets, JSON-RPC, the web gateway, command line and terminal: abstracted to maps, atomic writes and steps.
- JSON, SHA-256, regular expressions and time formats: values are compared as values, and white space inside raw JSON is below the model.
- The backends themselves: Start, Observe, Cancel and Output are steps with any answer.
- Context compilation, memory use and routing inside a scheduling batch: modelled as components of their own, not as causes of a failing batch.
- Run diagnostics, summaries, state versions and events in the run machine; state versions and receipts are modelled with actions.
- Several engine processes on one run: the run machine has one; what keeps it alone is the lease, modelled in `Lease`.
- The order in which concurrent observations reach the backend: they are steps in any order, and are settled in the source's order.
- The journal and receipt of a cancel action, start journals, configuration changes and the shape checks of action requests, which come before the journal is begun: single branches in front of what is modelled.
- Errors that the application maps by the text of their message, except a missing acknowledgement and a held lease: routing and file errors of an action are not modelled.
- A cancellation of Attempts of different drivers, which stops after the run is marked.
- The single-launch path of run/service.go that the controller no longer calls, and legacy snapshots.
- Attempts written before launch states were tracked, and snapshot validators field by field.
- Process numbers that are used again: a process found dead has ended, and one that has ended takes no step; an ended process may be taken for a live one.
- A wall clock that goes back, except in the memory catalog: the lease's clock only moves on.
- The text of lease commands and conflicts, and lease files that are incomplete.
- `CanonicalEnvelopeHashV2` and the context manifest: encodings of what is modelled.
- Memory text limits, audit reasons and project normalisation: texts are non-empty or not.
- The Codex product preference: it changes the candidates of a requirement before it is resolved.
- Loading of catalogs and probing of drivers: the active catalog and the availability of a target are parameters of each probe.
- Dependency safety across retries: a failure branch that has run stays completed while its dependency is reset, so the property is not claimed there.
- RunService.Engine.HoldWaiting: writes node, Attempt and run each time, where the source writes nothing when the wait is unchanged (run/service.go:2243-2268).
- RunService.Engine.ResetDownstream: resets in topological order, and so do the plans of `ActionReplay`; the source takes the names of the nodes in the order of their strings (run/service.go:2639), so a cut leaves other nodes reset, and the same ones when nothing is cut.
- ActionGuarantees.ExactlyOnce: `MayChange` lets nobody else touch a run with a half-applied plan, as after a crash, when the journals are replayed first, and lets a receipt age away only once its journal is answered; a store error that is returned without a crash, followed by a repeated decision, a cancel or many other actions, is not covered.
- MemoryCatalog.CheckRecords: leaves out project, scope and text encoding, which are checked field by field.
- MemoryCatalog.CheckReceipts: leaves out writer, audit reason and timestamp of a receipt.
- Pending start journals, which start-up takes in the same loop (application/service.go:604-611).
