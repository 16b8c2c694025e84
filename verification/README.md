# Tailflow scheduler and runtime: a verified model

This project models the parts of the Tailflow workflow agent whose correctness is not
visible in any one function, and proves what they keep over every run:

* **The workflow graph** (`Graph.dfy`, `BuildDag.dfy`): dependency lists with repeated
  entries, Kahn's algorithm, the position check on goto targets.
* **Goto loops** (`LoopBody.dfy`): the region a goto re-executes and the rewind of the
  in-degree table.
* **One step** (`StepNode.dfy`): resume rules, the `when` condition, error policies, the
  final status. What the evaluator and the action answer is a parameter.
* **The concurrent scheduler** (`Scheduler*.dfy`, `Ledger.dfy`): the dispatcher goroutine,
  one goroutine per started step and the caller of `executeDAG`, with their in-degree
  table, `completed` counter, bounded `ready` channel, semaphore, wait group and `done`
  channel. Each critical section and each channel operation is one action; runs are
  arbitrary interleavings. `DagState.dfy` has the critical sections as methods that
  change the fields in place and ties them to the actions.
* **What the loops must be like** (`SchedulerExact.dfy`, `SchedulerHold.dfy`,
  `SchedulerNecessity.dfy`): exactly when a rewind, a run and a workflow are safe. Two
  concrete workflows the graph builder accepts, one that hangs and one that closes `done`
  twice, are in `Witnesses.dfy`.
* **Four shared services**: the execution ring buffer (`ExecutionStore.dfy`), the keyed
  lock (`MemoryLocker.dfy`), the event bus (`EventBus.dfy`), the RabbitMQ wait manager
  (`WaitManager.dfy`).
* **The JSON scanners** (`JsonScan.dfy`).

`dafny verify dfyconfig.toml` checks everything. Several proofs begin with a `hide`
statement: it keeps definitions the proof does not need away from the solver.

## How the scheduler is proved

Beside the state there is a ghost *phase* for every step: idle, pending (about to be
sent, queued, or held by the dispatcher), running, or done having signalled its first
`k` children. `Ledger.Due` is the number of dependency edges into a step that are not
signalled in the present round. The invariant `SchedulerInvariant.Inv` says that the
in-degree table equals `Due`, that `completed` is the number of steps in phase done, and
that every program counter, queue entry, semaphore slot and wait-group unit, read as
*tokens*, occurs exactly as often as the phases call for. Kahn's algorithm keeps the same
ledger.

Where a loop is not well formed, `SchedulerHold.HoldRun` builds a schedule that holds one
executed step back until nothing else can move. The in-degrees a side exit leaves too low
are carried along as a surplus; the schedule ends with everything else at rest, which
accounts for every signal, or drives an in-degree below zero on the way.

`SchedulerHistory` looks back along a run: every recorded result is traced to the last
execution or refusal of its step, which is never followed by a reset, so what a run
returns and records is stated in terms of what the actions answered.

## Hypotheses

* Step ids are unique and dependencies are known (internal/parser/parser.go:179-224);
  there is at least one step (internal/parser/parser.go:61-63).
* A loop is *well formed* (`LoopBody.WellFormedLoop`) when its target is a proper ancestor
  of the goto step and the region has a single exit: every child of a region step other
  than the goto step is in the region. Entering the region from outside is allowed.
  Nothing in the repository checks this: `validateGotos` compares positions in the linear
  order only (internal/engine/dag.go:85). The hypothesis is exactly what is needed: for a
  fresh run of an accepted workflow with two or more semaphore slots,
  `SchedulerNecessity.SafeExactly` says that no reachable state is hung or has a negative
  in-degree if and only if all loops are well formed.
* The semaphore has at least one slot (internal/engine/engine_dag.go:66, `NumCPU`).

## Where code and documentation differ

* The error texts and comments on gotos speak of a target "topologically before" the step;
  being earlier in the computed order is weaker than being an ancestor
  (`SchedulerNecessity.HangsExactly`, `Witnesses.UnrelatedTargetHangs`).
* `Subscribe` works on a closed bus: the channel it returns stays open and silent
  (`EventBus.OpenAfterCloseExactly`, `EventBus.LateSubscriberHearsNothing`).
* The comments on the store speak of "the oldest entry"; with an id stored twice, evicting
  the older entry makes the newer one unfindable (`ExecutionStore.DuplicateForgotten`), and
  an event appended for an id that is not stored leaves a log of an execution that is not
  stored (`ExecutionStore.MemoryExecutionStore.AppendEvent`).
* A `recovery` workflow whose context is done is reported as cancelled even if no step
  returned an error (`SchedulerOutcome.StatusMeans`).
* After a backslash the sanitiser leaves a raw control character in place
  (`JsonScan.EscapedControlStays`; `JsonScan.MeetsRfcExactly` and
  `JsonScan.StrictlyCleanExactly` say for which texts the result is free of them), and the
  extractor counts only brackets of the opener's kind (`JsonScan.OtherBracketsIgnored`).

## Model

| member | source | states |
|---|---|---|
| Graph.StuckSetHasCycle | internal/engine/dag.go:125-127 | a non-empty set of steps each of which has a parent in the set contains a cycle, so a stuck Kahn loop is never a false alarm |
| Graph.LongPathHasCycle | internal/engine/dag.go:125-127 | pigeonhole: a path longer than the set it stays in repeats a step and so contains a cycle |
| Graph.TopologicalOrderExcludesCycles | internal/engine/dag.go:97-130 | a graph with a topological order has no cycle |
| BuildDag.TopoSort | internal/engine/dag.go:97-130 | succeeds if and only if the graph is acyclic, and then returns a permutation of the steps with every dependency before its dependents, also with repeated dependencies |
| BuildDag.Link | internal/engine/dag.go:27-47 | fails exactly for an unknown dependency and names the first one in declaration order and its step; otherwise children, parents and roots are those of the declared steps, with multiplicity and in order |
| BuildDag.DAG.ValidateGotos | internal/engine/dag.go:69-95 | accepts exactly the gotos whose target is strictly earlier in the order, reports the first offender with the right error, and defaults non-positive limits to 10 |
| BuildDag.BuildDAG | internal/engine/dag.go:22-67 | succeeds if and only if all dependencies are known, the graph is acyclic and gotos point earlier; each error occurs exactly under its condition, and those about one step name the first offender |
| BuildDag.DeclarationOrder | internal/engine/dag.go:31-46 | children lists and the roots are in the order in which the steps are declared |
| BuildDag.NoRootsMeansCycle | internal/engine/dag.go:49-51 | a non-empty workflow without a root step has a dependency cycle |
| BuildDag.AncestorTargetsPass | internal/engine/dag.go:85-87 | the position check accepts every target that is a proper ancestor, whatever order was computed |
| BuildDag.StepGraphWellFormed | internal/engine/dag.go:38-46 | children and parents lists of the built graph describe the same edges with the same multiplicity |
| LoopBody.FindLoopBody | internal/engine/goto.go:14-59 | returns exactly the steps on some path from the target to the goto step, none if and only if the target does not reach it |
| LoopBody.Search | internal/engine/goto.go:18-30 | the breadth-first search returns the smallest set that holds the start and is closed under the adjacency lists |
| LoopBody.LoopInDegree | internal/engine/goto.go:61-71 | counts the parents entries inside the region, repeated ones as often as they are written |
| LoopBody.TargetIsOnlyEntry | internal/engine/goto.go:61-71 | in an acyclic graph the target is the only region step with loop in-degree zero |
| LoopBody.RewindReadiesTarget | internal/engine/goto.go:105-127 | after a rewind exactly the target is ready, or nothing if the target does not reach the goto step, whatever order the region is listed in |
| LoopBody.SharedStepOrders | internal/engine/goto.go:73-115 | of two single-exit regions that share a step, one goto step reaches the other |
| Ledger.SignalKeepsLedger | internal/engine/engine_dag.go:157-168 | one signal lowers the due count of that child only, by one, and the child stops waiting exactly when the count reaches zero |
| Ledger.QuietMeansDone | internal/engine/engine_dag.go:157-168 | in an acyclic graph nothing waits once nothing is in flight |
| Ledger.DueOpen | internal/engine/goto.go:61-71 | when exactly the steps of a set are unfinished and all others have signalled, the due count of a step is its number of parents in the set: the rewound in-degree |
| Ledger.InitialLedger | internal/engine/engine_dag.go:33-37 | at the start the due count is the length of the parents list and exactly the roots do not wait |
| StepNode.ActionOutcome | internal/engine/engine_outcome.go:18-121 | a step that goes ahead: without an action nothing is recorded, a result left by a crash is cleared, and an error returned; a success records its output; an error is a success with a note under ignore, a failure with output, message, code and step id under continue and stop, and only stop returns it |
| StepNode.ConditionOutcome | internal/engine/engine_node.go:167-188 | a false condition records status skipped, no output and no error; a condition that cannot be evaluated records nothing and returns the error; neither executes the action |
| StepNode.RecoveryOutcome | internal/engine/engine_node.go:41-62 | a step that was running at the crash: skip records a success without output, fail a failure with code recovery_failed and the step id and returns an error; neither executes the action |
| StepNode.OwnFieldsWin | internal/engine/engine_outcome.go:60-65 | the output left by an ignored error has the action's own fields unchanged and the note only under a name the action did not use |
| StepNode.NodeLeavesResult | internal/engine/engine_node.go:70-165 | a step that returns no error leaves a final result, failed only after an action error under policy continue; no other step's result changes; a kept result means the action did not run |
| StepNode.FreshNode | internal/engine/engine_node.go:70-165 | in a fresh run the outcome depends on the answers alone |
| StepNode.ResumedNode | internal/engine/engine_node.go:16-68 | resuming with the default strategy keeps a success or skip and otherwise executes as if no result had been recorded |
| StepNode.ExecutionContext.SetStepResult | internal/runtime/context.go:62-67 | overwrites exactly one entry of the result map |
| StepNode.ExecutionContext.GetStepResult | internal/runtime/context.go:69-81 | finds the recorded result, if any |
| StepNode.ExecutionContext.ClearStepResult | internal/runtime/context.go:98-103 | removes exactly one entry |
| StepNode.ExecutionContext.HasFailedSteps | internal/runtime/context.go:121-132 | true if and only if some recorded result is failed |
| StepNode.ExecutionContext.HandleRecovery | internal/engine/engine_node.go:16-68 | settles the step exactly if nothing is to be executed: success and skipped are kept, a running one becomes a success under skip, a failure with its error under fail and is cleared under retry, anything else goes ahead |
| StepNode.ExecutionContext.EvaluateWhenCondition | internal/engine/engine_node.go:167-188 | a false condition records status skipped without output or error, a failing one returns an error and records nothing |
| StepNode.ExecutionContext.HandleStepError | internal/engine/engine_outcome.go:18-86 | ignore records a success with the noted output, continue and stop a failure with output, message, code and step id; only stop returns the error; no other entry changes |
| StepNode.ExecutionContext.ExecuteNode | internal/engine/engine_node.go:70-165 | the whole step: when its action is executed, what it records for each answer and each policy, and whether it returns an error |
| StepNode.ExecutionContext.FinishExecution | internal/engine/engine.go:100-115 | a recovery workflow whose context is done is cancelled whatever the run returned; otherwise the status is determined from the run |
| StepNode.ExecutionContext.DetermineStatus | internal/engine/engine_result.go:255-269 | the final status from the returned error, cancellation and recorded failures |
| Scheduler.WithTask | internal/engine/engine_dag.go:119-155 | moving a program counter touches none of the shared fields |
| DagState.DagState.constructor | internal/engine/engine_dag.go:33-68 | in-degrees, roots and one region per goto: for an accepted graph this is the initial state of a valid configuration |
| DagState.BuiltRoots | internal/engine/dag.go:33-36 | the roots collected while building are the parentless steps in declaration order, which is what the scheduler starts with |
| DagState.DagState.ResetLoopBody | internal/engine/goto.go:105-115 | the loop sets the region's in-degrees to the edges inside it, lowers the counter by the size of the region and clears exactly its results |
| DagState.DagState.CollectReadyLoopNodes | internal/engine/goto.go:117-127 | collects the region steps with in-degree zero in the region's order |
| DagState.DagState.HandleGoto | internal/engine/goto.go:73-103 | taken if and only if the step has a goto, its condition holds and its limit is not used up; then the fields become those after the rewind |
| DagState.DagState.Finished | internal/engine/engine_dag.go:123-146 | the critical section after a step: first error, counter, goto, and who closes done |
| DagState.DagState.CountSkipped | internal/engine/engine_dag.go:105-108 | a skipped step is counted and may be the one that closes done |
| DagState.DagState.SignalNext | internal/engine/engine_dag.go:157-168 | one decrement under the lock and the decision whether to send |
| DagState.DagState.CloseDone | internal/engine/engine_dag.go:148-149 | closing done, by a caller that must be the first, is the model's action |
| SchedulerInvariant.InvInit | internal/engine/engine_dag.go:33-68 | the invariant holds at the start |
| SchedulerInvariant.TakeKeeps | internal/engine/engine_dag.go:94-97 | starting a goroutine keeps the invariant |
| SchedulerInvariant.CountedKeeps | internal/engine/engine_dag.go:105-113 | counting a finished or skipped step keeps the invariant, and done is due exactly when it was the last |
| SchedulerInvariant.SignalKeeps | internal/engine/engine_dag.go:157-168 | a decrement keeps the invariant |
| SchedulerInvariant.CloseKeeps | internal/engine/engine_dag.go:148-149 | whoever closes done is the first and every step is finished |
| SchedulerRewind.BodySettled | internal/engine/goto.go:73-115 | when a well-formed goto is taken, every other step of its region has finished and has signalled all its children |
| SchedulerRewind.RewindKeeps | internal/engine/goto.go:73-127 | the rewind of a well-formed loop keeps the invariant: it re-opens the region and makes exactly the target pending |
| SchedulerSafety.PlainKeeps | internal/engine/engine_dag.go:70-168 | whatever the shape of the loops, every action but a taken goto keeps the invariant |
| SchedulerSafety.StepKeeps | internal/engine/engine_dag.go:70-168 | with well-formed loops every action of every goroutine keeps the invariant |
| SchedulerSafety.ReachableInv | internal/engine/engine_dag.go:33-168 | every reachable state has phases under which each in-degree is the number of dependency edges not signalled since the last reset, the counter is the number of finished steps, and nothing is queued, held, running or signalling but what the phases call for |
| SchedulerSafety.NeverTwice | internal/engine/engine_dag.go:157-168 | in every reachable state a step is queued, about to be sent or executed at most once |
| SchedulerSafety.DependenciesFirst | internal/engine/engine_dag.go:157-168 | a step on its way or running has in-degree zero and none of its dependencies is on its way or running |
| SchedulerSafety.OneGotoAtATime | internal/engine/goto.go:73-115 | two goto steps whose regions share a step are never in flight together |
| SchedulerSafety.DoneClosedOnce | internal/engine/engine_dag.go:101-155 | done is closed at most once, and only when the counter equals the number of steps and nothing is on its way |
| SchedulerSafety.DegreesNeverNegative | internal/engine/engine_dag.go:160-161 | no in-degree ever leaves the range from zero to the number of dependencies, so the `<= 0` test is an `== 0` test |
| SchedulerSafety.IterationsBounded | internal/engine/goto.go:87-94 | no goto is taken more often than its limit |
| SchedulerProgress.SendsNeverBlock | internal/engine/engine_dag.go:54-57 | in every reachable state a goroutine that wants to send to ready finds room |
| SchedulerProgress.NeverStuck | internal/engine/engine_dag.go:81-168 | in every reachable state some action is enabled until the call has returned |
| SchedulerProgress.StepDescends | internal/engine/engine_dag.go:81-168 | every action lowers the measure: goto iterations left, then work left in the round |
| SchedulerProgress.EveryRunEnds | internal/engine/engine_dag.go:70-168 | no run goes on for ever, whatever the schedule, the outcomes and the goto conditions |
| SchedulerRounds.DependenciesFinished | internal/engine/engine_dag.go:157-168 | a step on its way or running has not finished its current round and all its dependencies have finished theirs |
| SchedulerRounds.CompletedIsFinishedNow | internal/engine/engine_dag.go:128-155 | in every reachable state the counter is the number of steps finished in their current round, across any number of rewinds |
| SchedulerRounds.ReturnedIsComplete | internal/engine/engine_dag.go:70-79 | on return every step was executed or skipped once plus once for every goto that reset it, no worker is left and the first error is returned |
| SchedulerRounds.ExactTotal | internal/engine/goto.go:87-115 | a whole run executes or skips exactly the number of steps plus, over the gotos, iterations times region size |
| SchedulerExact.RewindExact | internal/engine/goto.go:73-127 | for a goto to another step: the state after the rewind is consistent if and only if the region has a single exit or, for a target that does not reach the goto step, that step has no children and is not the last to complete |
| SchedulerHold.HoldRun | internal/engine/engine_dag.go:81-168 | from a state whose in-degrees are at most what is due, some run ends with everything at rest but one executed step, or with a negative in-degree, and the latter only if some entry was too low |
| SchedulerNecessity.UnreachedTargetHangs | internal/engine/goto.go:94-102 | for every goto whose target does not reach it some run ends in a state from which nothing can move although the call has not returned |
| SchedulerNecessity.SideExitGoesNegative | internal/engine/engine_dag.go:157-168 | for every goto whose region has a side exit some run drives an in-degree below zero |
| SchedulerNecessity.HangsExactly | internal/engine/dag.go:85-87 | with single exits, no reachable state is hung if and only if every target is an ancestor of its goto step |
| SchedulerNecessity.GoesNegativeExactly | internal/engine/goto.go:105-115 | with ancestors as targets, no reachable in-degree is negative if and only if every region has a single exit |
| SchedulerNecessity.SafeExactly | internal/engine/engine_dag.go:70-168 | no reachable state is hung or has a negative in-degree if and only if all loops are well formed |
| SchedulerNecessity.RunConsistentExactly | internal/engine/goto.go:73-127 | along any run every state is consistent if and only if every goto taken on the way met the condition of RewindExact |
| SchedulerNecessity.AlwaysConsistentExactly | internal/engine/goto.go:73-127 | every reachable state is consistent if and only if all loops are well formed |
| SchedulerExact.SideExitBreaks | internal/engine/engine_dag.go:161-163 | with a side exit no phases can explain the in-degree table after the rewind |
| SchedulerExact.EmptyBodyBreaks | internal/engine/goto.go:94-102 | with a target that does not reach the goto step the rewound state is inconsistent unless the step owed nothing to anyone |
| SchedulerOutcome.FirstErrorStays | internal/engine/engine_dag.go:124-126 | an error once kept is never replaced |
| SchedulerOutcome.FirstErrorIsFirst | internal/engine/engine_dag.go:124-126 | the kept error is the one counted first |
| SchedulerOutcome.FailurePropagates | internal/engine/engine_dag.go:83-117 | after a step's error is counted none of its descendants is ever started again, and on return each of them has status skipped, no output and no error, and an error is returned |
| SchedulerOutcome.OneWorkerEach | internal/engine/engine_dag.go:119-123 | two goroutines never execute the same step at once |
| SchedulerOutcome.NoErrorMeansRecorded | internal/engine/engine_node.go:70-165 | a run that returns no error has a final result for every step, failed only under policy continue |
| SchedulerOutcome.StatusMeans | internal/engine/engine.go:94-115 | each status exactly: success when nothing was returned and every step has a result that is success or skipped, completed with errors when nothing was returned and some result is failed, failed when an error was returned and the context was not done, cancelled when it was done or, with recovery, done right after the run whatever was returned |
| SchedulerHistory.UntouchedResult | internal/runtime/context.go:62-103 | nothing but executing a step, refusing it or a goto whose region holds it changes its result |
| SchedulerHistory.ClearedResult | internal/engine/goto.go:87-115 | a step without error, with a true goto condition and iterations left, clears the results of its whole region |
| SchedulerHistory.StepNoneStale | internal/engine/goto.go:105-115 | every action of a fresh run keeps that only steps executed or refused in their current round have a result |
| SchedulerHistory.ResultTellsOrigin | internal/engine/engine_node.go:70-165 | every result of a fresh run tells what happened last to its step, not reset since: skipped means refused or a false condition, success an executed action that succeeded with that output or whose error was ignored, failed an executed action that answered that error |
| SchedulerHistory.SuccessWasExecuted | internal/engine/engine_outcome.go:56-121 | what is recorded as a success when the call returns was executed in its last round and answered a success, or an error under policy ignore |
| SchedulerHistory.ToleratedIsRecorded | internal/engine/engine_outcome.go:26-49 | an error under policy continue in the last execution of a step is recorded, with its output, message and code, when the run ends |
| SchedulerHistory.CompletedWithErrorsExactly | internal/engine/engine_result.go:255-269 | a fresh run that returns no error ends completed with errors if and only if the last execution of some step answered an error under policy continue, and the run is not cut off as cancelled |
| SchedulerHistory.RunFailsExactly | internal/engine/engine_dag.go:122-126 | a fresh run returns an error if and only if some execution in it had a condition that failed, no action to run, or an error under the default policy |
| SchedulerHistory.DescendantsNeverExecuted | internal/engine/engine_dag.go:81-117 | after a step's error is counted no action of the run gives a descendant a goroutine or executes it |
| SchedulerHistory.LaunchedExactly | internal/engine/engine_dag.go:94-98 | in every run the history variable counts exactly the goroutines started for a step |
| SchedulerHistory.ReadyIsFifo | internal/engine/engine_dag.go:54-57 | in every run the roots followed by everything sent to ready are what the dispatcher has received followed by what is queued, in that order |
| SchedulerHistory.KeptNeverExecuted | internal/engine/engine_node.go:26-28 | in a resumed run the action of a step recovered as success or skipped is never executed again unless a goto resets the step, and its result stays unless the step is refused |
| SchedulerHistory.FirstExecution | internal/engine/engine.go:63-69 | the first execution of a step goes by what was recovered: a success, a skip or, without retry, a running step is not executed, everything else is; a running one is recorded as its strategy says |
| SchedulerDeterminism.NodeFits | internal/engine/engine_node.go:16-77 | executing a step whose dependencies have settled records its settled result, fresh or resumed |
| SchedulerDeterminism.SequentialIsSettled | internal/engine/dag.go:97-130 | sequential evaluation in topological order gives every step the result its dependencies' results lead to |
| SchedulerDeterminism.ScheduleIndependence | internal/engine/engine_dag.go:70-168 | without gotos and errors, if answers depend on dependencies' results only, every interleaving that returns ends with the result map of the sequential evaluation |
| SchedulerDeterminism.SnapshotFits | internal/engine/engine.go:63-69 | what a snapshot taken at any moment of a deterministic run holds as success or skipped is the final result |
| SchedulerDeterminism.RecoveryEquivalence | internal/engine/engine.go:63-69 | under the same assumption, resuming from a snapshot taken at any moment of a run ends with the same result map as a run from scratch |
| Witnesses.UnrelatedTargetHangs | internal/engine/dag.go:85-87 | an accepted workflow whose goto target is no ancestor reaches a state where all steps are counted, done is open and no action is enabled |
| Witnesses.SideExitClosesTwice | internal/engine/engine_dag.go:148-168 | an accepted workflow with a side exit reaches a state where done was closed twice |
| ExecutionStore.SlotIsRemainder | internal/store/execution.go:232 | the remainder expression for the i-th newest entry is the slot just behind the head, wrapping once |
| ExecutionStore.RingAdd | internal/store/execution.go:138-154 | overwriting the slot at the head keeps the ring equal to the last additions, and a full ring's head is the oldest |
| ExecutionStore.AfterAdd | internal/store/execution.go:138-148 | after an addition the index is exact again if and only if the id was not still stored; logs of evicted executions are gone |
| ExecutionStore.DuplicateForgotten | internal/store/execution.go:141-143 | with an id stored twice, evicting the older entry removes it from the index while the newer one is still listed |
| ExecutionStore.MemoryExecutionStore.constructor | internal/store/execution.go:119-131 | empty, with capacity 100 for a non-positive argument |
| ExecutionStore.MemoryExecutionStore.Add | internal/store/execution.go:134-157 | keeps the last min(N, capacity) additions and removes exactly the evicted execution from index and event logs |
| ExecutionStore.MemoryExecutionStore.Get | internal/store/execution.go:159-169 | with an exact index finds exactly the stored ids |
| ExecutionStore.MemoryExecutionStore.List | internal/store/execution.go:225-239 | the last min(N, capacity) additions, newest first |
| ExecutionStore.MemoryExecutionStore.Update | internal/store/execution.go:197-207 | changes the one stored execution, seen through the index and the ring alike |
| ExecutionStore.MemoryExecutionStore.AppendEvent | internal/store/execution.go:250-257 | extends one log; logs stay limited to stored executions if and only if the id is stored |
| MemoryLocker.StepKeeps | internal/runtime/locker_memory.go:40-82 | every step of any client keeps the lock balance, the holder count and that no wake-up is lost |
| MemoryLocker.LocksMatchUnlocks | internal/runtime/locker_memory.go:40-82 | in every run successful locks minus successful unlocks of a key is one while it is locked and zero otherwise |
| MemoryLocker.MutualExclusion | internal/runtime/locker_memory.go:40-82 | the holders of a key are one while it is locked plus one per unlock by a non-holder; if only holders unlock, at most one client holds it |
| MemoryLocker.FreeKeyIsTaken | internal/runtime/locker_memory.go:47-61 | no lost wake-up: with a free key and a waiter, at most two enabled steps of present clients lock it again, with timeouts and barging |
| MemoryLocker.AttemptOutcome | internal/runtime/locker_memory.go:47-61 | looking at a free key makes the client its holder, looking at a locked one makes it wait and changes nothing else |
| MemoryLocker.WakeUpsArePaidFor | internal/runtime/locker_memory.go:73-79 | in every run the wake-ups of a key, with the one pending, are at most its successful unlocks |
| MemoryLocker.KeysAreIndependent | internal/runtime/locker_memory.go:27-38 | a client of one key never changes the entry of another |
| MemoryLocker.MemoryLocker.GetEntry | internal/runtime/locker_memory.go:27-38 | creates the entry of a key once, free and with nobody to wake; an existing entry stays |
| MemoryLocker.MemoryLocker.TryLock | internal/runtime/locker_memory.go:48-55 | one turn of the retry loop: succeeds exactly on a free key, which is locked then, and leaves a pending wake-up alone |
| MemoryLocker.MemoryLocker.Unlock | internal/runtime/locker_memory.go:64-82 | fails on a free key, otherwise frees it and fills the one-slot channel |
| EventBus.StepKeeps | internal/event/bus.go:48-131 | every step keeps listed channels open, every offered event accounted for, channels in order and the drop counter exact |
| EventBus.NeverPanics | internal/event/bus.go:58-131 | in no run of subscribe, unsubscribe, publish and close is an event sent on a closed channel or a channel closed twice |
| EventBus.DeliveredExactly | internal/event/bus.go:78-109 | once a publish has finished, a blocking channel was sent the event exactly once if it was registered when the publish got inside an open bus, and otherwise never; a lossy one was sent it once or has lost it once under the same condition |
| EventBus.SubscriberGetsPublished | internal/event/bus.go:35-109 | from actions alone: a finished publish has sent its data, under its sequence number, exactly once to a blocking channel that was subscribed before the publish got inside, not unsubscribed until then and on a bus not closed until then, and otherwise never; a lossy channel was sent or has lost it as often; no channel buffers more than it asked for, a blocking one loses nothing |
| EventBus.SubscribedAs | internal/event/bus.go:48-56 | a channel stays as lossy and as large as it was subscribed, over the whole run |
| EventBus.PublishedAs | internal/event/bus.go:78-87 | a call carries the data it was given under its own sequence number, over the whole run |
| EventBus.ListedExactly | internal/event/bus.go:48-71 | on a bus not closed a channel is registered exactly until it is unsubscribed |
| EventBus.SendOutcome | internal/event/bus.go:96-108 | a send waits exactly on a blocking channel without room; it reaches a channel with room, and only a full lossy channel loses the event |
| EventBus.ReceiverGetsNext | internal/event/bus.go:96-108 | a receiver waiting on an empty open channel is handed the next event sent to it, even without a buffer |
| EventBus.OfferedExactly | internal/event/bus.go:89-96 | over whole runs, getting inside an open bus offers the event to exactly the subscribers registered at that moment and nothing offers it again |
| EventBus.SentExactlyOnce | internal/event/bus.go:96-108 | once a publish has finished, what of its event was offered to a channel the channel was sent or has lost, and what it was sent is read or buffered |
| EventBus.OfferedWhenRegistered | internal/event/bus.go:89-96 | an event is offered to a channel exactly when a publish gets inside an open bus while it is registered |
| EventBus.DropsAreCounted | internal/event/bus.go:97-104 | the counter equals the lossy sends dropped, and blocking subscribers never lose one |
| EventBus.LossySendsAddUp | internal/event/bus.go:97-104 | in every run, events sent to lossy subscribers plus the drop counter equal the sends to lossy subscribers attempted |
| EventBus.OpenAfterCloseExactly | internal/event/bus.go:48-71 | on a closed bus a channel is open if and only if it was subscribed after the close and not unsubscribed since |
| EventBus.LateSubscriberHearsNothing | internal/event/bus.go:48-56 | a subscription made after close is never offered an event and stays open unless it is unsubscribed |
| EventBus.Bus.AddSubscription | internal/event/bus.go:48-56 | appends a fresh, open, empty channel of the requested size and kind and lists it last |
| EventBus.Bus.Subscribe | internal/event/bus.go:35-37 | appends a fresh, open, empty and lossy channel of the requested size, also on a closed bus |
| EventBus.Bus.SubscribeBlocking | internal/event/bus.go:44-46 | appends a fresh, open, empty channel of the requested size that is not lossy |
| EventBus.Bus.Unsubscribe | internal/event/bus.go:58-71 | removes and closes exactly the registered channel, once; anything else is left alone |
| EventBus.Bus.Close | internal/event/bus.go:117-131 | closes every listed channel once and empties the list; a second call does nothing |
| EventBus.Bus.Broadcast | internal/event/bus.go:96-108 | the loop serves subscribers in order until all are served or a blocking one without room makes it wait; whoever was served was sent the event if it had room and lost it, counted, if not |
| WaitManager.StepKeeps | internal/server/rabbitmq_wait.go:51-293 | every step, also a route between the two halves of a removal, keeps the maps, the lists and the accounts consistent |
| WaitManager.NobodyIsOrphaned | internal/server/rabbitmq_wait.go:51-90 | before close a registered waiter neither served nor cleaned up is listed with the running consumer in the maps, also with repeated and late cleanups |
| WaitManager.AtMostOneMessage | internal/server/rabbitmq_wait.go:251-274 | every waiter is sent at most one message, and a listed waiter's channel is empty |
| WaitManager.FirstMatchIsServed | internal/server/rabbitmq_wait.go:222-249 | a message goes to the listed waiter that registered first among those that are live and have no field, or have their value in that field, or the empty value and no such field; it leaves the list and the message is acknowledged; only without such a waiter the message is requeued and the consumer pauses |
| WaitManager.ServedAsRegistered | internal/server/rabbitmq_wait.go:51-62 | whoever is sent a message registered for it: it came from the queue of the registration, met the field and value given there, and the context was not done |
| WaitManager.WaiterStays | internal/server/rabbitmq_wait.go:51-62 | key, field and value of a waiter stay as registered and it is live exactly until its context is done, over the whole run |
| WaitManager.PausesAfterRequeue | internal/server/rabbitmq_wait.go:205-217 | after a requeue a consumer takes no message before its pause is over |
| WaitManager.EmptyConsumerGoes | internal/server/rabbitmq_wait.go:166-180 | a cleanup starts dropping the consumer exactly if nobody else is listed with it |
| WaitManager.AcksAreDeliveries | internal/server/rabbitmq_wait.go:194-220 | acknowledgements are attempted exactly for delivered messages and requeues exactly for the others |
| WaitManager.FirstMatchExactly | internal/server/rabbitmq_wait.go:233-246 | the first position whose waiter is live and has no field, its value in the field, or the empty value for an absent field; none if nobody is like that |
| WaitManager.WaitManager.Register | internal/server/rabbitmq_wait.go:51-90 | reuses or creates connection and consumer and lists the waiter last, or returns an unregistered one exactly when dialling or the channel fails |
| WaitManager.WaitManager.DeliverToWaiter | internal/server/rabbitmq_wait.go:251-274 | sends, acknowledges and unlists in one step, or does nothing when the channel is full |
| WaitManager.WaitManager.RouteMessage | internal/server/rabbitmq_wait.go:222-249 | the loop delivers to the first waiter that is live and has no field, its value in the field, or the empty value for an absent field; with room in every channel it delivers to nobody only if nobody is like that |
| WaitManager.WaitManager.Consume | internal/server/rabbitmq_wait.go:194-220 | one message of the consumer loop: routed, or requeued and throttled |
| WaitManager.WaitManager.RemoveFromList | internal/server/rabbitmq_wait.go:152-180 | takes the waiter off the present consumer's list and reports exactly whether that list is empty now |
| WaitManager.WaitManager.DropConsumer | internal/server/rabbitmq_wait.go:182-192 | an empty consumer is cancelled and leaves the maps, its connection exactly when no other consumer of that address is left |
| WaitManager.WaitManager.Close | internal/server/rabbitmq_wait.go:276-293 | cancels exactly the consumers in the maps and empties the maps; lists of waiters stay |
| JsonScan.FindJSONStart | internal/action/json.go:71-79 | the position of the first opening bracket, or -1 if there is none |
| JsonScan.FindMatchingClose | internal/action/json.go:81-120 | the block up to the first closer outside strings that brings the depth back to zero, empty if and only if there is none |
| JsonScan.ExtractJSON | internal/action/json.go:57-69 | empty if and only if no block can be extracted, otherwise the block from the first opener to its first end, in matching brackets |
| JsonScan.ShortestBlock | internal/action/json.go:81-120 | that end is the first place where the depth, counted outside strings, returns to zero |
| JsonScan.OtherBracketsIgnored | internal/action/json.go:107-115 | brackets of the other kind inserted anywhere outside strings leave a block a block, balanced or not |
| JsonScan.SanitizeJSONStrings | internal/action/json.go:122-155 | the loop computes the character-wise repair, which reads as the original does and has no raw newline, carriage return or tab at an unescaped position inside a string |
| JsonScan.SanitizingKeepsMeaning | internal/action/json.go:122-155 | read after section 7 of RFC 8259, escapes standing for their characters, the repaired text is the original, for every text |
| JsonScan.ModeIsReading | internal/action/json.go:87-105 | the scanners' two flags say whether a reader is between strings, in a string or after a backslash in one |
| JsonScan.DepthCountsPlain | internal/action/json.go:107-115 | the depth is the number of openers minus the number of closers that stand outside strings |
| JsonScan.SanitizingKeepsScan | internal/action/json.go:122-155 | the scanners are in the same mode and at the same depth after the repaired text as after the original |
| JsonScan.SanitizingIsIdempotent | internal/action/json.go:122-155 | repairing twice is repairing once |
| JsonScan.CleanIffUnchanged | internal/action/json.go:122-155 | a text is left as it is if and only if it has no raw newline, carriage return or tab at an unescaped position inside a string |
| JsonScan.SanitizedIsClean | internal/action/json.go:136-145 | the repaired text has none |
| JsonScan.EscapedControlStays | internal/action/json.go:131-132 | a control character right after a backslash in a string stays as it is |
| JsonScan.StrictlyCleanExactly | internal/action/json.go:122-155 | the repaired text has no newline, carriage return or tab inside a string at all if and only if no backslash in a string of the original is followed by one |
| JsonScan.MeetsRfcExactly | internal/action/json.go:122-155 | the repaired text meets the rule of section 7 of RFC 8259 for control characters if and only if the only ones inside strings of the original are newlines, carriage returns and tabs at unescaped positions |
| JsonScan.ReExtraction | internal/action/json.go:34-69 | extracting again from the repaired block returns it unchanged |

## Left out

- Action bodies (HTTP, SQL, shell, files, templates) and the expression evaluator: a step answers through a parameter, `when` and goto conditions are arbitrary booleans.
- `executeNode` is one atomic action on the result map in the scheduler model; it writes only its own step's entry, and nothing else writes that entry meanwhile (`SchedulerOutcome.OneWorkerEach`).
- Test-case mocks, on_error handlers of steps and workflows, retries, tracing, metrics and published events: they do not change the scheduling state.
- Time and cancellation: a cancelled context shows only as step errors and in the final status.
- SchedulerNecessity.SafeExactly: with a single semaphore slot a finished step cannot be held back while others run, so for one slot only the direction from well-formed loops to safety is proved (`NeverStuck`, `DegreesNeverNegative`); for a resumed run likewise.
- A goto whose target is the goto step itself: `validateGotos` rejects it (the position must be strictly smaller), so `RewindExact` and the results in `SchedulerNecessity` exclude it.
- BuildDag.BuildDAG: on an error the original returns no graph, the model an unspecified one beside the error; the default limit is written to the graph, not to the caller's step list that shares it.
- SchedulerDeterminism.ScheduleIndependence: says what runs that return end with; that runs do return is `NeverStuck` and `EveryRunEnds`.
- MemoryLocker.MemoryLocker.TryLock: the retry loop of `Lock` is modelled as steps of the protocol, not as one method, since other clients act between its turns.
- EventBus.Bus.Broadcast: the loop of `Publish` without other calls in between, up to the first send that has to wait; waiting and interleaved publishes are the protocol's `Send` steps.
- WaitManager.FirstMatchExactly: printed field values are given with the message; `extractDotField` and JSON decoding of the body are not modelled.
- What happens to RabbitMQ waiters after `Close`, after the broker closes a delivery channel, and redelivery after a failed acknowledgement.
- Execution snapshots are values; the deep copy of parameters and step maps, `UpdateStep`, metrics and pagination of the store are not modelled.
- The MariaDB store, the Redis key-value store, HTTP and SSE handlers, masking of sensitive keys, YAML parsing.
- Machine integer overflow: counters and sequence numbers are unbounded.
