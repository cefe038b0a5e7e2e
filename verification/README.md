# Verified model of the DAG execution engine and its protocols

This project models the stateful core of the agent platform in Dafny: how a task graph is
validated, levelled, executed, reviewed and replanned; how an execution survives crashes through a
central checkpoint; and the protocols around it (budgets, worker slots, circuit breaker, agent
sessions, leased asynchronous tasks, event streams). `dafny verify dfyconfig.toml` checks it.

Code that mutates an object is a class whose methods are proved equal to a function of the old state;
code that loops is a method with a loop. The same functions are the steps of a state machine, over
which the properties are proved for every interleaving, every crash point and every completion order.

| file | what it models |
|---|---|
| `DagTypes`, `Text` | shared values; blank text and trimming |
| `Recovery`, `RecoveryWorld`, `RecoveryInvariant`, `RecoveryTheorems`, `RecoveryReuse`, `RecoveryDeadline` | durable recovery: one session over the central checkpoint, all sessions of a task as a step machine with late, lost and repeated messages, crashes and takeovers, its invariant, what follows, when stored results are used again, and what is left of a session past its deadline |
| `DurableExecution` | the synthesis and the runner calls of durable attempts, and the replies built on them |
| `RunBudget` | the budget of one run, the coroutines and nested scopes that share it, the gate before each model call |
| `TaskGraph`, `Scheduler`, `CriticalPath` | validation and levels, the barrier-free scheduler, the critical path |
| `ResultReuse`, `ReplanRuns`, `CacheTransparency`, `CachedExecution` | the replan cache, all attempts of one run over it, why it does not show in the results, and the scheduler loop that uses it |
| `DagReply`, `ReviewLoop`, `ModelAnswers`, `RunnerHistory`, `DagService` | the aggregate and the shadow checks; executions and the review loop over them, whoever produced them; what replies owe to the runner, synthesizer and reviewer of each attempt; the service |
| `AgentSession`, `SessionRuns` | resumable sessions over two revisioned stores; all concurrent runs on one record |
| `TaskLease`, `LeaseRuns` | lease epochs; one task seen by all workers |
| `SseFraming`, `ConversationStream` | the incremental re-framer; the conversation stream and its validator |
| `CircuitBreaker`, `WorkerCapacity` | the dependency guard; the shared worker slots |

## Assumptions

- Digests are injective: a fingerprint is modelled by the value it digests. Versions (UUIDs) are fresh.
- The task gateway behaves like the fake of `tests/test_async_task_manager.py`.
- Time in the recovery, cache and session models does not go back. The circuit breaker needs only a
  clock that is never negative, with the settings' bounds (threshold and bulkhead at least 1, positive
  recovery time).
- Model calls, runners, reviewers and the projection of one frame are arbitrary functions or choices.
  Aggregates and times are reals.

## Findings

- Session writes are fenced by the revision alone. Once a record has expired and was removed, revisions
  start again, so in either store a run that still holds the expired record can commit over a new one of
  another user; a completion renews the expiry, so the time-to-live guard of the Redis store lets it
  pass (`SessionRuns.ExpiryLetsOldRunCommit`). What is missing belongs inside the compare-and-set: at the
  instant of the write, the record the write is derived from must not have expired. With that, and one
  common time to live, no commit crosses an expiry (`SessionRuns.TimelyWritesExtend`); without it some
  continuation crosses (`SessionRuns.LateRunCanCross`). A check of the caller before the call is not
  enough (`SessionRuns.CallersCheckIsNotEnough`), nor is one of the stored record's own expiry, since
  the stored record is then the other user's (`SessionRuns.CheckedRunCrosses`).
- The memory store accepts progress written at or after the expiry of the record it extends, which the
  model's validator would refuse; every other write is valid, and the Redis store refuses this one
  (`SessionRuns.WriteValidity`).
- A save refused only by its own deadline check leaves the session's local state ahead of the central
  one without closing it. After the deadline the session sends nothing more and draws no version
  (`RecoveryDeadline.ExpiredForever`). It can start one more invocation exactly if it still waits for the
  answer to a RUNNING entry (`RecoveryDeadline.LateInvocationIff`, `RecoveryDeadline.OneLateInvocation`).
  The service runs every session inside a scope whose timer is set to the same deadline and cancels such
  a wait, so this is the short window in which the answer reaches the waiting task before the
  cancellation does; once the cancellation has arrived nothing starts any more
  (`RecoveryDeadline.CancelledForever`). The late invocation gets no further reservation.
- A cancelled lease counts as a success: a cancelled probe closes the circuit (`CircuitBreaker.SuccessCloses`).
- The first user of a tenant is not checked against the tenant cap, so a cap below one acts as one.
- The validator's test for an event after the terminal one cannot be the one that fails, since a terminal
  event that is not last is refused before.

## Model

| member | source | states |
|---|---|---|
| `Recovery.DagRecovery.Open` | src/agentscope_platform/application/dag_recovery.py:61-75 | A new task is committed as revision 1 with its deadline fixed; a resumed one takes the committed revision, state, binding and deadline; a live session always starts in agreement with one commit of the central log; resuming fails only for a committed checkpoint of another binding or past its deadline |
| `Recovery.DagRecovery.Save` | src/agentscope_platform/application/dag_recovery.py:86-96 | The deadline check alone leaves local state ahead without closing the session; any answer but the exact acknowledgement closes it for good; a session whose revision is behind the log on entry cannot succeed |
| `Recovery.OnlyExactAnswerAdvances` | src/agentscope_platform/application/dag_recovery.py:86-96 | Only the acknowledgement of the next revision with the very state sent advances a session; any other answer closes it where it is, at any later time |
| `Recovery.DagRecovery.Reserve` | src/agentscope_platform/application/dag_recovery.py:98-110 | A grant means the reservation is in the central log and within both limits; a refusal by the limits touches nothing; a failed save still leaves the local charge; refused before any write exactly if failed, past the deadline, or beyond one of the limits, so the last call within them is granted unless its save fails |
| `Recovery.DagRecovery.BeginRun` | src/agentscope_platform/application/dag_recovery.py:112-148 | An active session whose entry under the key is DONE, reusable and of the same input gets exactly its stored result, with nothing written, and a stored result is handed out in no other case; refused before any write exactly if failed, past the deadline, or for a 257th operation; otherwise a RUNNING entry is committed under a new version before the invocation |
| `Recovery.DagRecovery.FinishRun` | src/agentscope_platform/application/dag_recovery.py:149-156 | The entry is found by version, mutated before the liveness check, and the result is handed out only once the DONE entry is committed; the entry is then DONE with that result and that reuse flag |
| `Recovery.CheckpointStore.Save` | src/agentscope_platform/application/dag_recovery.py:32-37 | Honest compare-and-set: commits only on the current revision, may commit and lose the answer, may refuse, and acknowledges only what it committed |
| `Recovery.OpsKeepFixedFields` | src/agentscope_platform/application/dag_recovery.py:98-156 | Every write keeps binding, deadline and existing entries, never lowers a counter, and stays within call, token and 256-operation limits |
| `RecoveryInvariant.EventKeepsInv` | src/agentscope_platform/application/dag_recovery.py:61-156 | Each of the fifteen steps (clock, two kinds of open, deliver, acknowledge, lost answer, crash, plan, reserve, run, finish, send, provider call, runner call, invocation return) keeps the protocol invariant, whichever session takes it |
| `RecoveryInvariant.RunKeepsInv` | src/agentscope_platform/application/dag_recovery.py:61-156 | The invariant holds after every run of every set of sessions |
| `RecoveryTheorems.DurableBudget` | src/agentscope_platform/application/dag_recovery.py:98-110 | Over the whole life of a task and all sessions: provider calls <= committed calls <= call limit, and their summed tokens <= committed tokens <= token limit |
| `RecoveryTheorems.CallsAreCovered` | src/agentscope_platform/application/dag_recovery.py:98-110 | The calls paid by the first n commits are covered by the counters of commit n, for every n |
| `RecoveryTheorems.DurableFields` | src/agentscope_platform/application/dag_recovery.py:61-110 | Counters never decrease across committed revisions, binding and deadline never change, at most 256 operations are ever committed |
| `RecoveryTheorems.LiveSessionAgrees` | src/agentscope_platform/application/dag_recovery.py:77-96 | A live session with its lock free holds exactly the commit its revision names; at equal revision it equals the central state |
| `RecoveryTheorems.LeftBehindForever` | src/agentscope_platform/application/dag_recovery.py:86-96 | Once another session has taken the revision a session would extend, that session never commits again, never advances and starts no invocation, in every continuation |
| `RecoveryTheorems.FailedForever` | src/agentscope_platform/application/dag_recovery.py:77-96 | After a failed save a session sends nothing, draws no version and starts no operation, in every continuation |
| `RecoveryTheorems.FailedCommitsAtMostOne` | src/agentscope_platform/application/dag_recovery.py:86-96 | Of a failed session at most the one request whose answer was lost can still be committed |
| `RecoveryDeadline.ExpiredForever` | src/agentscope_platform/application/dag_recovery.py:77-96 | Once the deadline of a session has passed it sends no further request and draws no version in any continuation, whatever it was doing and although nothing marks it as failed; unless it was waiting for an answer it also never commits or advances |
| `RecoveryDeadline.LateInvocationIff` | src/agentscope_platform/application/dag_recovery.py:112-156 | A session past its deadline can start an invocation in some continuation exactly if it is alive, waits for the answer to a RUNNING entry, and no other session has taken the revision that entry needs; a session that is idle or waits for a reservation, a finished entry or its creation starts none |
| `RecoveryDeadline.OneLateInvocation` | src/agentscope_platform/application/dag_recovery.py:112-156 | And over any continuation it starts at most one |
| `RecoveryDeadline.AnswerInvokes` | src/agentscope_platform/application/dag_recovery.py:138-148 | The answer to a RUNNING entry starts its invocation without another look at the clock, and the session then waits no more |
| `RecoveryDeadline.LateAnswerIsReached` | src/agentscope_platform/application/dag_recovery.py:138-148 | A run of the protocol reaches a session past its deadline that can still invoke: its entry was sent in time and the answer is on its way |
| `RecoveryDeadline.CancelledForever` | src/agentscope_platform/application/dag_recovery.py:167-177 | The window is closed by the timer of the scope: once its cancellation, due at the same deadline, has failed the waiting save, the session sends nothing, draws no version and starts no invocation in any continuation |
| `RecoveryTheorems.StepProvenance` | src/agentscope_platform/application/dag_recovery.py:112-156 | Every outcome a session holds, of the planner, synthesis, critique and replan operations too, came from one invocation with that input, begun after its RUNNING commit and recorded in a committed DONE entry |
| `RecoveryTheorems.CrashSafeProvenance` | src/agentscope_platform/application/dag.py:426-468 | After any history of crashes, lost answers and takeovers, each node result a session holds came from one invocation whose upstream arguments are exactly the results its dependencies have in that session, begun after its RUNNING commit and recorded in a committed DONE entry |
| `RecoveryTheorems.VersionDeterminesResult` | src/agentscope_platform/application/dag_recovery.py:138-156 | Two sessions that hold the same version hold the same key, input and result |
| `RecoveryReuse.StoredIsReused` | src/agentscope_platform/application/dag_recovery.py:119-130 | In the protocol, an active session that asks for an operation whose result is stored takes it; no version is drawn, nothing is sent, no body runs |
| `RecoveryReuse.NotStoredStarts` | src/agentscope_platform/application/dag_recovery.py:131-148 | Without a stored result the run draws its version and records a RUNNING entry, unless it would be a 257th operation |
| `RecoveryReuse.FinishedIsKept` | src/agentscope_platform/application/dag.py:450-464 | A finished step is stored as usable again; a finished node exactly if it ended DONE, used no tool, and all its dependencies are stored as usable again |
| `RecoveryReuse.ResumeReplays` | src/agentscope_platform/application/dag_recovery.py:61-75 | A session opened on a checkpoint before its deadline gets back everything stored there for the operations it asks for in an order that respects their dependencies, marked as reused, without drawing a version, sending a request or running a body |
| `RecoveryReuse.ReuseIsReached` | src/agentscope_platform/application/dag_recovery.py:112-156 | A run of the protocol plans in one session, commits the result, and takes it in a second one |
| `RecoveryTheorems.ReuseCoversAncestors` | src/agentscope_platform/application/dag.py:450-464 | A node reused from a checkpoint has every ancestor reused too, each DONE and free of tool use |
| `RecoveryTheorems.DoneMeansDependenciesDone` | src/agentscope_platform/application/dag.py:683-700 | In recovery, a DONE node result has DONE results behind every dependency, computed or read back |
| `DurableExecution.SynthesisTellsNodes` | src/agentscope_platform/application/dag.py:340-390 | A synthesis a session holds, computed or read back from a checkpoint, covers every node of its attempt and is DONE if and only if every node outcome of that attempt in that session is DONE |
| `DurableExecution.RunsHaveDoneAncestors` | src/agentscope_platform/application/dag.py:683-700 | No runner call of a durable run is made for a node with an ancestor that did not end DONE, over every history of crashes, lost answers and takeovers |
| `DurableExecution.RunHasDoneUpstream` | src/agentscope_platform/application/dag.py:683-734 | Every runner call of a durable run is for a node whose dependencies all hold DONE results in the session that made the call |
| `DurableExecution.RunsArePlanned` | src/agentscope_platform/application/dag.py:404-468 | Every runner call of a durable run belongs to a task of the plan its session executes |
| `DurableExecution.HeldWasRun` | src/agentscope_platform/application/dag.py:683-763 | A node result a session holds, computed or read back, comes from a call of the runner, unless a dependency it holds did not end DONE, and then it is the skip |
| `DurableExecution.HeldExecutionOk` | src/agentscope_platform/application/dag.py:281-370 | What a session holds for an attempt is an execution like any other: levelled, failure-closed, its synthesis DONE exactly if all its nodes are |
| `DurableExecution.DurableReplyOk` | src/agentscope_platform/application/dag.py:188-279 | A review loop over the attempts a session holds, whatever was computed and whatever was read back, keeps all promises of a reply, and accepts only if every node of its last attempt in that session is DONE |
| `RunBudget.DagRunBudget.Reserve` | src/agentscope_platform/application/dag_budget.py:41-57 | Grants exactly when nothing was refused before and both limits allow it; a refusal sticks |
| `RunBudget.GrantedWhileAllFit` | src/agentscope_platform/application/dag_budget.py:41-57 | A reservation is granted if and only if it and everything asked before it, granted or not, fit both limits together |
| `RunBudget.DagBudgetedCall` | src/agentscope_platform/infrastructure/agentscope/dag_budget_model.py:14-36 | The provider is called exactly when the local and then the durable reservation are granted; a local refusal leaves the checkpoint untouched; a durable refusal leaves the local charge; a call granted locally is refused only by a checkpoint that is failed, expired or at its limits, or by a failing save; one call reserves its input bytes, its output limit and the two fixed reserves |
| `RunBudget.ActionsAreCharged` | src/agentscope_platform/application/dag_budget.py:31-97 | Over every interleaving of the coroutines in a scope, with nested scopes, spawned coroutines, cancellations and adapters that swallow exceptions, calls made or granted are paid for and the counters stay within the limits |
| `RunBudget.ScopeStaysWithinLimits` | src/agentscope_platform/application/dag_budget.py:68-97 | Everything done in an outermost scope, in any interleaving, stays within its own limits, whatever limits inner scopes name |
| `RunBudget.RefusalSurvivesAdapters` | src/agentscope_platform/application/dag_budget.py:54-57 | Once the budget refused anything, in every continuation nothing more is granted, only calls granted before may still be made, and the outermost scope raises even if every exception inside is swallowed |
| `RunBudget.NestedScopeIsItsBody` | src/agentscope_platform/application/dag_budget.py:71-80 | As long as nothing is refused, every run with nested scopes of the same owner is a run of the same coroutines without those scopes |
| `RunBudget.ScopeIsEntered` | src/agentscope_platform/application/dag_budget.py:68-80 | A nested scope is entered only by the owner of the outer one and before any refusal, and otherwise raises; its limits never count |
| `Text.StripMeaning` | src/agentscope_platform/application/dag.py:176 | Stripping removes exactly the blank ends; the result is empty exactly for blank text |
| `TaskGraph.ValidateAndNormalize` | src/agentscope_platform/application/dag.py:769-801 | Accepts exactly the well-formed requests, returns every task trimmed and in place, and each error names a defect the request has |
| `TaskGraph.AcceptedAreRead` | src/agentscope_platform/application/dag.py:783-801 | An accepted plan is the request task by task: trimmed identifiers and descriptions, and the dependencies given |
| `TaskGraph.BlankIsRefused` | src/agentscope_platform/application/dag.py:786-789 | A request with a missing or blank identifier or description is never accepted |
| `TaskGraph.TopologicalLevels` | src/agentscope_platform/application/dag.py:831-854 | Fails exactly when the known dependencies contain a cycle; otherwise terminates with level k holding exactly the tasks whose longest dependency chain has k predecessors, in input order |
| `TaskGraph.LevelOfTask` | src/agentscope_platform/application/dag.py:831-854 | Every task is in exactly one level |
| `TaskGraph.DepsAreLower` | src/agentscope_platform/application/dag.py:831-854 | Known dependencies lie in strictly lower levels |
| `TaskGraph.StuckIsCyclic` | src/agentscope_platform/application/dag.py:846-848 | A round that selects nothing while tasks remain proves a dependency cycle |
| `TaskGraph.FinishedIsAcyclic` | src/agentscope_platform/application/dag.py:831-854 | Running to the end proves that there is no cycle |
| `Scheduler.RunReady` | src/agentscope_platform/application/dag_scheduler.py:60-90 | For every completion order: success evaluates every node, each submitted once, after its dependencies completed, with exactly their results; "cannot make progress" only if no ranking of the graph exists; an error is one that a node raises on established results |
| `Scheduler.Collect` | src/agentscope_platform/application/dag_scheduler.py:83-86 | A batch of finished work advances the results, or stops at the first error it meets |
| `Scheduler.SubmitReady` | src/agentscope_platform/application/dag_scheduler.py:73-79 | One pass leaves no submittable node behind |
| `Scheduler.StuckMeansCyclic` | src/agentscope_platform/application/dag_scheduler.py:80-81 | A round with nothing running and nothing to submit means that no ranking exists |
| `Scheduler.EvaluationIsUnique` | src/agentscope_platform/application/dag_scheduler.py:60-90 | Two evaluations of an acyclic graph agree on every node: completion order does not matter |
| `Scheduler.LevelsEvaluate` | src/agentscope_platform/application/dag.py:308-325 | Level-by-level execution computes an evaluation of the same graph |
| `Scheduler.LevelsEvaluateKnown` | src/agentscope_platform/application/dag.py:303-336 | The same for the level-by-level mode, where names that are no task of the plan order nothing |
| `Scheduler.ConfluentWithLevels` | src/agentscope_platform/application/dag_scheduler.py:60-90 | Whatever order nodes complete in, the scheduler returns the map that level-by-level execution returns |
| `Scheduler.LevelsRank` | src/agentscope_platform/application/dag.py:797-800 | A validated and levelled plan always has a ranking, so the scheduler cannot get stuck on it |
| `Scheduler.RunPlan` | src/agentscope_platform/application/dag.py:525-529 | On an accepted plan the "cannot make progress" error is unreachable, success is the level-by-level result, and any other error is one a node raised on results established before |
| `Scheduler.LevelsSucceed` | src/agentscope_platform/application/dag.py:308-325 | With a non-failing worker, level-by-level execution succeeds |
| `CriticalPath.BestDependency` | src/agentscope_platform/application/dag_diagnostics.py:181-185 | The heaviest scored dependency, the empty path if none is scored |
| `CriticalPath.ScoreAll` | src/agentscope_platform/application/dag_diagnostics.py:176-186 | Each node gets the heaviest dependency chain ending at it; completeness means every node has a time |
| `CriticalPath.CriticalPathOf` | src/agentscope_platform/application/dag_diagnostics.py:173-194 | A real dependency chain whose duration is the sum of its nodes' times, and no dependency chain weighs more |
| `CriticalPath.LevelsRegisterInOrder` | src/agentscope_platform/application/dag.py:290-295 | Registering level by level puts every dependency before its dependents, as the scoring needs |
| `ResultReuse.DagResultReuse.Get` | src/agentscope_platform/application/dag_reuse.py:42-47 | Returns an entry only for the same input within its time to live, and then a DONE result with reusable tools only |
| `ResultReuse.DagResultReuse.Record` | src/agentscope_platform/application/dag_reuse.py:62-90 | Stores an eligible result under its version and drops the node's entry otherwise, with the reason |
| `ResultReuse.ReasonMatchesDecision` | src/agentscope_platform/application/dag_reuse.py:49-60 | The reported reason is "replan_reused" exactly when the lookup returns a result |
| `ResultReuse.RecordThenLookup` | src/agentscope_platform/application/dag_reuse.py:42-90 | What a recording answers afterwards: the same input within the time to live if eligible, nothing if not, and other nodes are unaffected |
| `ResultReuse.FoundAgain` | src/agentscope_platform/application/dag_reuse.py:31-90 | A recorded result is found later exactly if it ended DONE, used no tool but the two for evidence, is asked for with the same goal, task and upstream versions, and its time to live, a positive one, has not run out |
| `ReplanRuns.ResultsComeFromResultsInForce` | src/agentscope_platform/application/dag_reuse.py:31-90 | Over any sequence of attempts, a result in force, reused or not, was computed for the same goal and task from exactly the upstream results now in force; a reused node and all its dependencies ended DONE |
| `ReplanRuns.KeptIsReused` | src/agentscope_platform/application/dag.py:427-441 | A node takes its result from the cache exactly if one is kept, fresh, for the same goal and task and the very versions its dependencies have now; otherwise it starts a worker, which calls the runner unless an upstream did not end DONE |
| `ReplanRuns.FailureReachesDependents` | src/agentscope_platform/application/dag.py:683-700 | A node with a dependency that did not end DONE has the skip result |
| `ReplanRuns.DoneMeansAncestorsDone` | src/agentscope_platform/application/dag.py:683-700 | The nodes that did not end DONE are closed under descendants, across replans and reuse |
| `ReplanRuns.CallsHaveDoneAncestors` | src/agentscope_platform/application/dag.py:683-700 | In a run with the replan cache no runner call is made for a node with an ancestor that did not end DONE (durable runs: DurableExecution.RunsHaveDoneAncestors) |
| `DagReply.AggregateIsBetween` | src/agentscope_platform/application/quality.py:13-24 | The aggregate lies between the smallest and the largest of the three scores, hence in [0, 1], for all non-negative weights |
| `DagReply.AggregateIsMean` | src/agentscope_platform/application/quality.py:13-24 | The aggregate is the mean of the three scores by their weights, the plain mean if no weight is positive |
| `DagReply.AggregateByWeight` | src/agentscope_platform/application/quality.py:13-24 | A score without weight does not count, and one that alone has weight is the aggregate |
| `DagReply.ValidAttempts` | src/agentscope_platform/evaluation/dag_shadow.py:282-299 | Accepts exactly consecutively numbered, reviewed attempts whose last one is the reply's own execution |
| `DagReply.LevelledResultsAreValid` | src/agentscope_platform/evaluation/dag_shadow.py:262-279 | Results in level order of a plan of at most six tasks pass the topology check |
| `DagReply.LevelIndexIsLevel` | src/agentscope_platform/evaluation/dag_shadow.py:266-279 | The index the topology check computes for an identifier is that of its task's level |
| `DagService.RunLegacy` | src/agentscope_platform/application/dag.py:303-336 | The barrier mode reports one result per task in level order and succeeds exactly when level-by-level evaluation does; each result is the reply of this attempt's runner to the results of its known dependencies |
| `CachedExecution.AttemptFits` | src/agentscope_platform/application/dag.py:404-530 | The results of an attempt with the cache, reused or computed, read in level order: one per task with its identity, and closed under failure |
| `CachedExecution.SomeNodeCanMove` | src/agentscope_platform/application/dag.py:404-530 | As long as a node of a levelled plan has no result, some node is running or can begin |
| `CachedExecution.BeginNode` | src/agentscope_platform/application/dag.py:427-441 | A node takes result and version from the cache exactly when the lookup with the versions in force succeeds, and otherwise starts its worker with the results in force; the run takes that very step |
| `CachedExecution.FinishNode` | src/agentscope_platform/application/dag.py:479-488 | A finished worker is recorded in the cache under a new version with the input it started from; the run takes that very step |
| `CachedExecution.RunReady` | src/agentscope_platform/application/dag.py:395-530 | For every interleaving an attempt over the cache object ends, is one attempt of a run of module ReplanRuns with the replies of this runner, succeeds with its results in force, and fails only with an error the runner raised for a running node |
| `RunnerHistory.NodeIsTold` | src/agentscope_platform/application/dag.py:404-530 | A result in force in a run with the cache is the skip for a dependency that did not end DONE, or the reply a runner gave to the upstream results in force: this attempt's unless the node was reused |
| `RunnerHistory.AttemptIsTold` | src/agentscope_platform/application/dag.py:404-530 | So the results a settled attempt reports are what runners said to the results it reports |
| `CacheTransparency.InForceIsWorkedOut` | src/agentscope_platform/application/dag_reuse.py:31-90 | With workers whose answers depend on task and upstream results alone, a result in force, reused or computed, is the answer to the results in force |
| `CacheTransparency.CacheIsTransparent` | src/agentscope_platform/application/dag_reuse.py:31-90 | Then over any attempts, interleavings and times to live, a settled attempt holds exactly the results of executing its plan level by level without a cache |
| `DagService.ExecuteCached` | src/agentscope_platform/application/dag.py:395-530 | The nodes of an attempt with the cache are those of such a run, fit the plan and are closed under failure; it fails only with an error of this attempt's runner; each result is the skip or what a runner said to the upstream results reported, this attempt's or, for one DONE with evidence tools at most, an earlier one's |
| `DagService.ExecuteNodes` | src/agentscope_platform/application/dag.py:303-336 | Without the cache, optimized or level by level, an attempt reports every task once, in optimized mode closed under failure; it fails only with an error of this attempt's runner; each result is the skip, for a dependency that did not end DONE, or the reply of this attempt's runner to the upstream results reported |
| `DagService.ExecutePlan` | src/agentscope_platform/application/dag.py:281-370 | An executed plan, with the cache, without it, or level by level, is levelled, reports every task once, and in optimized mode is closed under failure with a DONE synthesis exactly if every node is DONE; the cycle error is exactly a cycle, and any other error is one its runner or synthesizer raised; results are what the runner said and the synthesis is the synthesizer's, in optimized mode its answer with the stop reason the results decide |
| `DagService.PickedResults` | src/agentscope_platform/application/dag.py:525-530 | The scheduler's map read in level order fits the plan and is closed under failure |
| `ModelAnswers.RunOneAnswers` | src/agentscope_platform/application/dag.py:683-763 | A worker reports exactly the runner's reply under its task's identity, or in optimized mode the skip exactly if an upstream did not end DONE |
| `ModelAnswers.ReviewedIsTold` | src/agentscope_platform/application/dag.py:203-236 | A reviewed attempt records what the reviewer of that attempt said, or zero scores without asking, and the mean of those scores |
| `ModelAnswers.FinalIsTold` | src/agentscope_platform/application/dag.py:197-279 | The reply of the loop reports its last attempt, the first to reach the threshold or the last there may be, and is accepted exactly if it reaches it |
| `DagService.Revise` | src/agentscope_platform/application/dag.py:589-641 | A revised plan is accepted exactly if it is not empty and would be accepted as a request; it then has distinct non-empty identifiers, descriptions, known dependencies in optimized mode, and respects the task limit |
| `ReviewLoop.FinalReply` | src/agentscope_platform/application/dag.py:197-279 | Ending the review loop at an accepted attempt, or at the last one allowed, yields a reply that keeps all those promises |
| `ReviewLoop.ReviewedReplyOk` | src/agentscope_platform/application/dag.py:197-279 | Any history of attempts that stops at the first one that passes, or when the replans are used up, yields a reply that keeps all promises, wherever its executions come from |
| `DagService.Review` | src/agentscope_platform/application/dag.py:197-279 | The review loop, with the cache or without, ends in such a reply, or with an error that the reviewer, the reviser, a rejected revised plan, or a runner or synthesizer of some attempt within the limit accounts for; each attempt's critique is what the reviewer said, or zero scores for an optimized attempt that did not end DONE, and its aggregate their weighted mean |
| `DagService.RunTasks` | src/agentscope_platform/application/dag.py:175-279 | The reply of an accepted request keeps these promises; with the cache it reports the results that the run of all its attempts, each with its own plan and runner, has in force; an error is accounted for by a cycle, the first attempt or the review |
| `DagService.Run` | src/agentscope_platform/application/dag.py:165-279 | Every reply of at most six tasks passes the topology check; with review it passes the attempts check, uses at most max_replans + 1 attempts, is accepted exactly if its last attempt passes, and acceptance in optimized mode means every node DONE; whenever the cache is on, the reply reports the results of a run of module ReplanRuns; if no model call fails and every revised plan could be a request, a proper acyclic request succeeds; every reported result, synthesis and critique is what the runner, synthesizer or reviewer of its attempt said, and the reply is accepted exactly if its last attempt reaches the threshold |
| `DagService.ReplyIsUncached` | src/agentscope_platform/application/dag.py:197-279 | The replan cache does not show: with such workers the reply reports what executing its plan without a cache gives, whatever was reused over all attempts |
| `AgentSession.CeilIsPositive` | src/agentscope_platform/infrastructure/persistence/agent_session.py:80-82 | The rounded-up time to live is positive exactly when the record has not expired |
| `AgentSession.SessionStore.Get` | src/agentscope_platform/infrastructure/persistence/agent_session.py:30-36 | The memory store drops and hides an expired record; the Redis store returns what it holds |
| `AgentSession.SessionStore.CompareAndSet` | src/agentscope_platform/infrastructure/persistence/agent_session.py:10-22 | Writes exactly when the expected revision matches (absent for a creation) and, for Redis, the time to live is positive |
| `AgentSession.SessionRun.Start` | src/agentscope_platform/application/session.py:69-108 | Only the owner, with the original goal, gets a found record: not found, goal mismatch, active lease and missing confirmation are answered exactly in their cases and in that order; a finished record is returned as it is, an unfinished one taken over exactly if it is still stored at that revision; a new record belongs to the caller |
| `AgentSession.SessionRun.Show` | src/agentscope_platform/application/session.py:51-59 | Reading a session finds it only for its owner |
| `AgentSession.SessionRun.PersistProgress` | src/agentscope_platform/application/session.py:112-135 | Progress is refused without a key once side effects were seen, else committed on the run's own revision or lost; side effects are never forgotten and the expiry stays |
| `AgentSession.SessionRun.Complete` | src/agentscope_platform/application/session.py:143-166 | Completion is committed on the run's own revision or reported as lost; DONE ends the session as succeeded, anything else leaves it paused with its lease given up |
| `SessionRuns.CommitExtendsLatest` | src/agentscope_platform/application/session.py:86-166 | A successful write derives from the commit just before it if and only if the record was not removed since the writer read it |
| `SessionRuns.TimelyWritesExtend` | src/agentscope_platform/application/session.py:61-166 | With one common time to live, if at the instant of every write the record it is derived from has not expired, no commit of any run crosses an expiry: each one that has a base extends the commit just before it |
| `SessionRuns.LateRunCanCross` | src/agentscope_platform/application/session.py:61-166 | That guard cannot be dropped: whenever a run still holds the stored record at or after its expiry, in either store, there is a continuation in which it commits over a record of any other caller |
| `SessionRuns.CallersCheckIsNotEnough` | src/agentscope_platform/application/session.py:134-166 | Nor can it be left to the caller: the same happens when the clock the run read before its call was still before the expiry of the record it holds |
| `SessionRuns.CheckedRunCrosses` | src/agentscope_platform/infrastructure/persistence/agent_session.py:30-51 | A concrete run of either store in which a call made before the expiry of its base lands on an unexpired record of another user |
| `SessionRuns.OneWriter` | src/agentscope_platform/application/session.py:61-166 | Of the runs whose record was not removed since they read or wrote it, at most one that owns it can still commit, and what it holds is what is stored |
| `SessionRuns.OneLiveWriter` | src/agentscope_platform/application/session.py:61-166 | With the guard, in terms of what is stored alone: at most one owner has the stored revision and an unexpired record, and what it holds is what is stored |
| `SessionRuns.CommitsAreLawful` | src/agentscope_platform/application/session.py:86-166 | Revisions advance by one; unless a commit crosses an expiry, owner, goal, key and creation time stay, side effects are not forgotten and a terminal status is not overwritten |
| `SessionRuns.CommitsAreOwn` | src/agentscope_platform/application/session.py:175-203 | Every commit was made by a run whose caller owns it and the record it was derived from |
| `SessionRuns.TakeoverIsAllowed` | src/agentscope_platform/application/session.py:168-199 | A found record is taken over only by its owner, for its goal, unfinished, outside another's unexpired lease, and after a side effect with the original key and a confirmation |
| `SessionRuns.GenerationIsOneSession` | src/agentscope_platform/application/session.py:61-166 | Over any stretch without crossings the session never changes hands and nothing follows a terminal status |
| `SessionRuns.RedisStoresValidCheckpoints` | src/agentscope_platform/domain/session.py:69-79 | Every checkpoint written through the Redis store satisfies the model's validator |
| `SessionRuns.WriteValidity` | src/agentscope_platform/application/session.py:92-165 | What a write stores satisfies the validator if and only if it does not report progress at or after the expiry of the record it extends; in Redis every write does |
| `SessionRuns.StoredValidity` | src/agentscope_platform/domain/session.py:69-79 | In either store a committed checkpoint is valid if and only if it was written before it expired |
| `SessionRuns.MemoryStoresInvalidCheckpoint` | src/agentscope_platform/infrastructure/persistence/agent_session.py:38-51 | A concrete run in which the memory store accepts a checkpoint that the validator would refuse |
| `SessionRuns.ExpiryLetsOldRunCommit` | src/agentscope_platform/infrastructure/persistence/agent_session.py:30-51 | In either store, a concrete run in which an expired run commits over another user's new record of the same identifier |
| `TaskLease.TaskGateway.TryLease` | tests/test_async_task_manager.py:78-117 | A free or expired lease opens a new epoch; a renewal needs the same owner and epoch and an unexpired lease; a finished task is left alone |
| `TaskLease.TaskGateway.Update` | tests/test_async_task_manager.py:118-148 | An update counts only from the owner of the current epoch of an unfinished task, and ends the lease if terminal, recording its status, result and error |
| `TaskLease.TaskGateway.CancelTask` | tests/test_async_task_manager.py:149-164 | Cancels exactly an unfinished task |
| `TaskLease.AsyncTaskManager.Submit` | src/agentscope_platform/application/async_task.py:135-220 | Whatever other clients and submissions do in between: a handle is registered only for a lease the gateway granted to this worker, the in-flight cap holds, a failed submission leaves no handle and no unfinished task, and the refusals by state, kind, role, token lifetime and capacity come before any task is created; and it fails only for one of the reasons it names |
| `TaskLease.AsyncTaskManager.Adopt` | src/agentscope_platform/application/async_task.py:226-248 | Adopts exactly a task leased to this worker, unfinished, without a handle, while there is a slot and the token lives long enough |
| `TaskLease.AsyncTaskManager.CancelByUser` | src/agentscope_platform/application/async_task.py:260-275 | Not found exactly for a missing, foreign, non-agent or finished task; otherwise the answer says whether the task is cancelled, by this call or another, and the local handle is stopped exactly then |
| `TaskLease.AsyncTaskManager.Heartbeat` | src/agentscope_platform/application/async_task.py:364-391 | Losing the lease, the epoch or the task stops the handle, and so does a request that raises, before or after it took effect; a kept lease does not; a lease this worker still holds is renewed and does not stop it |
| `TaskLease.AsyncTaskManager.CompleteOnce` | src/agentscope_platform/application/async_task.py:393-418 | A stopped handle never reports success; any other report is the gateway's fenced update; the holder of the current epoch gets its report recorded |
| `LeaseRuns.EndsOnceByHolder` | src/agentscope_platform/application/async_task.py:298-418 | A task becomes terminal at most once, by a user cancel or by the one holder of its epoch, and keeps the result that update carried, also when a failure report follows a success report that raised |
| `LeaseRuns.ReportsOnce` | src/agentscope_platform/application/async_task.py:315-351 | A handle reports success at most once, and only if it was not stopped, and failure at most once |
| `LeaseRuns.FinishedForever` | tests/test_async_task_manager.py:78-164 | A finished task never changes again |
| `LeaseRuns.StaleUpdatesAreIgnored` | tests/test_async_task_manager.py:118-148 | Updates of an earlier epoch or another worker change nothing, however late they arrive |
| `LeaseRuns.OneFinisher` | src/agentscope_platform/application/async_task.py:298-418 | Of all handles of all workers at most one can finish the task |
| `LeaseRuns.NoStealing` | tests/test_async_task_manager.py:78-117 | While a lease is held no request changes the task and no step opens an epoch or changes the owner of an unfinished task; once it is free or expired whoever asks gets the next epoch |
| `LeaseRuns.EpochsGrow` | tests/test_async_task_manager.py:78-117 | Epochs never go back, and the holder of an epoch never changes |
| `LeaseRuns.StoppedNeverSucceeds` | src/agentscope_platform/application/async_task.py:393-405 | A stopped handle sends no success report in any continuation |
| `SseFraming.Find` | src/agentscope_platform/api/routes.py:765-771 | The leftmost place of a marker, or none |
| `SseFraming.BoundaryMeaning` | src/agentscope_platform/api/routes.py:765-771 | The chosen boundary is the leftmost blank-line marker, and there is never more than one marker at a place |
| `SseFraming.BoundaryIsStable` | src/agentscope_platform/api/routes.py:725-732 | A boundary found in a prefix stays the boundary whatever text follows |
| `SseFraming.FramesOfPrefix` | src/agentscope_platform/api/routes.py:725-732 | Framing a prefix and continuing with what it left over gives the frames of the whole |
| `SseFraming.FramesSplitText` | src/agentscope_platform/api/routes.py:725-732 | Frames, the markers that closed them and the rest spell the text again: nothing but markers is lost |
| `SseFraming.SplitIsUnique` | src/agentscope_platform/api/routes.py:725-732 | The split at leftmost markers is unique, so it is what framing computes |
| `SseFraming.RestHasNoBoundary` | src/agentscope_platform/api/routes.py:725-735 | What is left at the end holds no complete frame |
| `SseFraming.Drain` | src/agentscope_platform/api/routes.py:725-735 | The inner loop emits exactly the complete frames of its buffer, up to the first that fails |
| `SseFraming.ProjectTaskEvents` | src/agentscope_platform/api/routes.py:719-746 | For every way of cutting the text into chunks the output is the same function of the concatenated text |
| `SseFraming.OutputFromSplit` | src/agentscope_platform/api/routes.py:719-740 | Without failures that output is the projection of the frames of the unique split and of a non-blank tail |
| `SseFraming.FailedOutput` | src/agentscope_platform/api/routes.py:744-750 | Once a frame fails, what follows in the stream does not matter: the events before it and one error event |
| `ConversationStream.Produce` | src/agentscope_platform/infrastructure/agentscope/conversation_candidate.py:58-105 | Succeeds exactly when some chunk is a completed final snapshot of 1 to 65,536 characters extending the increments before it, and then the tokens spell it; tokens are never empty and never exceed the limit, whatever fails |
| `ConversationStream.AnswerIsUnique` | src/agentscope_platform/infrastructure/agentscope/conversation_candidate.py:72-103 | At most one answer exists, of 1 to 65,536 characters |
| `ConversationStream.TextOfBlocks` | src/agentscope_platform/infrastructure/agentscope/conversation_candidate.py:72-90 | The text of a chunk is that of its text blocks in order |
| `ConversationStream.Generate` | src/agentscope_platform/infrastructure/agentscope/conversation_candidate.py:107-108 | Returns exactly the answer, or nothing |
| `ConversationStream.Events` | src/agentscope_platform/api/conversation_app.py:120-143 | Every run meets the event contract and ends with "done" exactly when there is an answer, which the tokens then spell |
| `ConversationStream.Validate` | src/agentscope_platform/evaluation/conversation_stream.py:8-49 | Accepts exactly the streams that meet the contract; the check for an event after the terminal one is never the one that fails |
| `ConversationStream.ContractReadsBack` | src/agentscope_platform/evaluation/conversation_stream.py:8-49 | A stream that meets the contract reads back as numbered tokens and one ending |
| `CircuitBreaker.HttpDependencyGuard.EnterCircuit` | src/agentscope_platform/infrastructure/http/resilience.py:99-112 | Admission, in the order of the checks |
| `CircuitBreaker.HttpDependencyGuard.LeaveCircuit` | src/agentscope_platform/infrastructure/http/resilience.py:114-125 | The whole new state after a lease ends |
| `CircuitBreaker.StepKeepsInv` | src/agentscope_platform/infrastructure/http/resilience.py:71-125 | Entering and leaving keep the link between the counters and the history of leases |
| `CircuitBreaker.OpenAfterFailures` | src/agentscope_platform/infrastructure/http/resilience.py:114-125 | The circuit is open exactly while the last threshold-many leases to end all count as failed, told from how they ended: a spent deadline, a timeout, a transport error, another exception, or a mark |
| `CircuitBreaker.DecisionFromHistory` | src/agentscope_platform/infrastructure/http/resilience.py:99-112 | The decision on every call is determined by history alone: recent failures, time, an outstanding probe, outstanding leases |
| `CircuitBreaker.Bulkhead` | src/agentscope_platform/infrastructure/http/resilience.py:99-116 | The counter is the number of outstanding leases, at most the bulkhead, so the clamp at zero never acts |
| `CircuitBreaker.SingleProbe` | src/agentscope_platform/infrastructure/http/resilience.py:104-119 | At most one probe is outstanding and the flag says whether one is |
| `CircuitBreaker.OnlyProbesWhileOpen` | src/agentscope_platform/infrastructure/http/resilience.py:99-125 | From opening until a lease ends without failure, every admitted call is a probe and the circuit stays open |
| `CircuitBreaker.SuccessCloses` | src/agentscope_platform/infrastructure/http/resilience.py:71-125 | A lease that returned or was cancelled without a mark closes the circuit; any other ending counts as failed, opens it at the threshold and prolongs it |
| `CircuitBreaker.Recovers` | src/agentscope_platform/infrastructure/http/resilience.py:99-112 | With nothing outstanding, a call after the recovery time is always admitted |
| `WorkerCapacity.DagWorkerCapacity.Join` | src/agentscope_platform/application/dag_scheduler.py:38-51 | Refused exactly for overload; otherwise the tenant's slot object, created for its first user |
| `WorkerCapacity.DagWorkerCapacity.Release` | src/agentscope_platform/application/dag_scheduler.py:52-57 | Gives back what was held at that stage and deletes the entry with its last user |
| `WorkerCapacity.StepKeepsInv` | src/agentscope_platform/application/dag_scheduler.py:38-57 | Entering, taking either slot and leaving at any stage keep all counters in agreement with the users there are |
| `WorkerCapacity.WithinSlots` | src/agentscope_platform/application/dag_scheduler.py:30-31 | Running work stays within the global and per-tenant slots, however tenant entries come and go |
| `WorkerCapacity.EntryWhileUsed` | src/agentscope_platform/application/dag_scheduler.py:46-57 | A tenant has an entry exactly while it has users, and all its users share that one object |
| `WorkerCapacity.WithinCaps` | src/agentscope_platform/application/dag_scheduler.py:40-45 | Both in-flight caps hold in every reachable state |
| `WorkerCapacity.LetInExactly` | src/agentscope_platform/application/dag_scheduler.py:38-51 | A newcomer is refused exactly if as many users wait or run as may, or its tenant has users and as many as its cap; otherwise it waits |
| `WorkerCapacity.SlotsMeaning` | src/agentscope_platform/application/dag_scheduler.py:30-31 | There is at least one slot, and a tenant has its limit, at least one and at most all |
| `WorkerCapacity.InflightIsSum` | src/agentscope_platform/application/dag_scheduler.py:49-57 | The total counter is the sum of the tenants' user counters |
| `WorkerCapacity.NeverStuck` | src/agentscope_platform/application/dag_scheduler.py:52-54 | Whenever work is queued, something runs or can take the slot it waits for |
| `WorkerCapacity.WaitsForItsTenant` | src/agentscope_platform/application/dag_scheduler.py:52-54 | A user blocked at the first stage is blocked by its own tenant only |

## Left out

- HTTP, MCP, sandbox, Redis and platform clients, application wiring, settings and command lines: plumbing around libraries.
- Tokens, JSON encoding, SHA-256 and UUIDs: abstracted as injective or fresh values.
- Prompts, planners, evidence text and its size limits: an oversized evidence is an error of the oracle it is passed to.
- Progress events, metrics, logging and diagnostics delivery: they do not influence results.
- Cleanup of scheduled work that is cancelled before it first runs, and other event-loop internals: suspension points are steps.
- UTF-8 decoding and the projection inside one event frame: framing works on decoded text, and an error of either is a failing frame or upstream.
- Redaction and truncation inside a single session step: only the number of stored steps is modelled.
- Confirmation grant replay: whether a fresh grant covers a caller is a property of the caller.
- The record limit of graph registration, which truncates diagnostics only.
- Result versions without a replan cache, which are attempt numbers and are never looked up.
- Rounding of floating-point scores and times.
- Client cancellation of the conversation stream, which ends it without a terminal event.
- Deadlines of execution scopes: the time limit only ends a scope early.
- RecoveryDeadline.CancelledForever: the timer itself is not a step; its cancellation of a waiting save is the step SaveFails, and how soon after the deadline it arrives is up to the event loop.
- Recovery.DagRecovery.Open: the class shows one session at a time, with other sessions committing arbitrary states at every await; what sessions do together is in RecoveryWorld.
- RecoveryWorld.Do: an operation key is run at most once per session, as the service does.
- RunBudget.DagBudgetedCall: limits are non-negative, as settings guarantee.
- TaskLease.AsyncTaskManager.Submit: a cancel request that itself raises is not modelled.
- DagService.Run: a cache is modelled exactly when all allowed tools are read-only, and settings that would replan with other tools are refused beforehand, as the constructor does.
- CachedExecution.RunReady: cancelling the work still running after an error is not modelled; its results are never used.
- DurableExecution.DurableReplyOk: critiques are arbitrary; that a critique read back belongs to the same execution follows from its input (RecoveryTheorems.StepProvenance).
- LeaseRuns.Do: a worker asks for the lease at any time, and its answer may be lost, refused for want of a token or a slot, or used late.
- WorkerCapacity.Do: waiters may take a free slot in any order; the fairness of semaphores is not modelled.
- Scheduler.RunReady: cancelling the work still pending after an error is not modelled; its results are never used.
