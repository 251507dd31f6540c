# A verified model of the distributed job manager

Any number of workers share one versioned state object per job iteration and coordinate only
through conditional writes. This project models that system in Dafny and proves what it promises:
over every run of the protocol, every task graph, every order of calls and every interleaving of
cleanup. Five linked components are covered.

1. **Tasks** (`tasks.dfy`, `task_runs.dfy`): start, takeover, retry, completion, skip and failure
   under an attempt budget, a deadline and an absolute lifetime.
2. **The iteration graph** (`cycles.dfy`, `cascades.dfy`, `settling.dfy`, `jobs.dfy`,
   `planning.dfy`, `job_object.dfy`, `merges.dfy`, `sessions.dfy`): the cycle check, the skip cascade,
   settling, the verdict, the two merges, and one execution's calls.
3. **The protocol** (`protocol*.dfy`, `ownership.dfy`, `saving.dfy`): the store, the workers' own
   copies, and the steps read / change locally / write conditionally / re-read and merge / retry; who
   overrides whom, and concrete runs move by move.
4. **The poll scheduler and the pool** (`schedules.dfy`, `poll_scheduler.dfy`, `overtaking.dfy`,
   `worker_pool.dfy`).
5. **Retention** (`retention.dfy`).

How it is laid out. Each entity that is a value is a datatype with the domain's operations as
functions on it; each entity the program changes in place is a class (`TaskCell`, `Job`,
`JobHandle`, `JobStore`, `PollScheduler`, `WorkerPool`, `JobCleaner`) whose methods are proved equal
to those functions, loops and all, whatever order a hash map is visited in. The theorems are about
the functions, so they hold of the methods. What each function means is said once more, in statuses,
owners, dependencies and moments and without that function, by the laws beside it (`*_laws.dfy`).

How a run is modelled. Every reading of the clock, every minted identifier, every jitter draw, every
choice of a task and every decision of an executor is a parameter of a step, so a theorem over all
runs is a theorem over all of these. In the protocol the clocks of different workers are not related
to each other at all; a worker may stop at any step; a write may land without being acknowledged; and
the sequence of moves is arbitrary. Two readings are ordered only inside one settling or one merge,
where the program itself takes them one after the other. The task runs and the scheduler read one
clock that never goes back.

## What the proofs turned up

- `Job::merge_with_processed_task` carries over every task its worker owns *in its own copy*
  (src/core/job.rs:1371-1374), while the comment above it promises to carry only what this execution
  processed. `ProtocolOverrides.SettledTasksGiveWayOnlyToOverrides` says, over every run, exactly when
  a settled stored task stops being what it was. Two runs show it happen to a completed task: a task
  its worker refused and another then retried and completed comes back failed
  (`ProtocolWitnesses.RefusedTaskComesBack`), and one whose worker was released by its deadline and
  another then took over and completed comes back running (`ProtocolWitnesses.ReleasedTaskComesBack`).
  Both become pickable again. The protocol's other promises hold with this behaviour in place.
- `Job::merge_with_picked_task` asks only who owns the stored task, not what became of it.
  `ProtocolOverrides.MergedStartFindsUnstartedOrOwn` says, over every run, what it may find, and
  `ProtocolRevival.PutOutTaskIsRevived` is a run in which it revives a task the cascade had put out,
  over a dependency that task does not accept. `Merges.MergedStartKeepsItsDependencies` holds while
  what the copy saw settled still stands, and `Merges.MergedStartIsSatisfiedExactlyWhen` gives the
  exact condition on the stored state.
- A worker that lags behind a whole retention window creates a deleted iteration again. The newest
  iterations stay stored all the same, but such an iteration outlives every report:
  `Retention.LateStartStays` is that run for every retention, and `Retention.NewestIterationsRemain`
  says that exactly the retained iterations are left if and only if no late start is left over.
- A put is repeated while its answer is lost, so a worker can be refused by its own write. It then
  merges onto that write and pays a further attempt (`ProtocolAnswers.ALoneWorkerRunsOut`: any budget is
  used up with no other worker in sight), or gives up a close it has stored itself
  (`ProtocolAnswers.UnansweredCloseIsDropped`). `Saving.SaveJobState` states the bound with both counted.
- A task brought back in this way also gets its old number of attempts back, so the budget bounds the
  stored starts of a task only together with the results brought back
  (`ProtocolLedger.FreshStartsAreBounded`).
- A start and a result lose the same race to different ends. Where the iteration closed meanwhile and
  nobody else took the task, a result is given up as too late and a start is an error
  (src/execution/worker.rs:473-481); where a later iteration is stored, both end as a missing task.
  `ProtocolConflicts.RefusedSavesEnd` says, over every run, which end a refused save comes to.
- No run meets the deadlock that settling can report (`ProtocolRuns.NoRunMeetsADeadlock`): the branch
  answers only for states no sequence of writes produces.

## Model

| member | source | states |
|---|---|---|
| ProtocolRuns.ClosedIterationsCarryTheirVerdict | src/execution/worker.rs:705-862 | in every run, each closed stored iteration has a closing moment and only resolved tasks, and is stored failed exactly if a task was skipped for a failure or a terminal failure has no failure-tolerant dependent that completed or skipped itself, as read at the closing moment or any later one |
| ProtocolClosing.ClosedStatusIsEarned | src/core/job.rs:1160-1241 | in every run, each closed stored iteration has every task completed, skipped or failed for good when it closed, is failed if and only if some task is skipped for a failed dependency or some failed task has no failure-tolerant dependent completed or skipped by its executor, and is completed otherwise |
| ProtocolClosing.AdvancesExactlyWhenDue | src/execution/worker.rs:307-408 | a worker that read an iteration works on it if and only if it is open, and plans the next one if and only if it is closed, the budget is not spent and the asked-for moment, or else the start plus the interval, has come |
| ProtocolClosing.LaterIterationsWereDue | src/core/job.rs:1057-1098 | in every run each stored iteration after the first started when, by its stored status, budget, asked-for moment, start and interval, the one before it was due to be followed |
| ProtocolOutputs.StoredOutputsWereHandedIn | src/execution/worker.rs:559-701 | in every run the output of each task stored as completed was handed in for that very task by the worker stored as its owner, by a call or as what its executor returned, at a move made while it was executing |
| ProtocolOutputs.ActIsGiven | src/execution/worker.rs:281-942 | each of the nine kinds of move stores or holds no output that its owner did not hand in |
| ProtocolConflicts.RefusedSavesEnd | src/execution/worker.rs:429-503 | in every run, which answer a refused save gets by what is stored: a copy whose iteration is not the newest ends as a missing task; else a start is given up exactly if another worker holds its task and errs exactly if nobody else does and the iteration closed, a result is given up in either case, and nothing else ends a save or is an error |
| ProtocolConflicts.StepRunsOneJob | src/execution/worker.rs:281-408 | one move of any worker keeps every stored iteration and every copy of one job identifier, but for a first iteration about to be created |
| ProtocolRuns.ClosedIterationsAreNeverRewritten | src/execution/worker.rs:789-862 | an iteration once stored closed is stored identically, version included, at every later point of the run |
| ProtocolRuns.TasksNeverChangeIteration | src/core/job.rs:1276-1396 | a task stored in one iteration at one point of a run is never stored in another, at that point or later |
| ProtocolRuns.IterationsGrowByOne | src/execution/worker.rs:281-408 | stored iterations are numbered from one without gaps, all but the newest are closed, and a move adds at most the next number |
| ProtocolRuns.NoRunMeetsADeadlock | src/core/job.rs:1160-1198 | no look for work, no recorded result and no merged result in any run ends in the deadlock error |
| ProtocolRuns.RefusedWritesStayRefused | src/execution/worker.rs:820-845 | a conditional write that is refused once is refused for ever, so a conflict and the re-read after it lose nothing by not being atomic |
| ProtocolRuns.RunsStoreConsistently | src/storage/object_storage.rs:209-275 | every stored state of every run carries the iteration number and the version it is stored under |
| ProtocolSchedule.IterationsKeepTheirCalendar | src/core/job.rs:1057-1098 | in every run no iteration after the first is numbered past the iteration budget, and each started no earlier than the closed stored iteration before it allows |
| ProtocolRuns.StepKeepsSystem | src/execution/worker.rs:227-503 | one move of one worker keeps the whole invariant of the store and of every worker's copy, and only extends the history |
| ProtocolSafety.ActKeepsShape | src/execution/worker.rs:281-942 | each of the nine kinds of move keeps versions, numbering and the relation of copies to what was written, and adds at most one iteration |
| ProtocolSoundness.ActIsSound | src/execution/worker.rs:281-942 | each of them keeps every stored and every held task graph closed and acyclic and every closing verdict honest |
| ProtocolSteps.CarryingDescends | src/core/job.rs:1367-1375 | a result carried over a newer stored state of its iteration loses none of its tasks and gains only this worker's own |
| ProtocolJobs.SettlingIsHonest | src/core/job.rs:1160-1241 | settling a sound iteration leaves it open, or closes it with every task resolved and failed exactly if a failure was not taken care of, in tasks and statuses; it never reports a deadlock |
| ProtocolJobs.VerdictIsTimeless | src/core/job.rs:1209-1241 | once every task is resolved and nothing may move, the verdict is the same at every later reading of the clock |
| Saving.JobStore.PutObject | src/storage/object_storage.rs:240-256 | one conditional put lands exactly where its condition holds and it was not lost on the way; answered, it is acknowledged under the next version if and only if it landed and refused otherwise; behind a lost answer or an error it may have landed |
| Saving.JobStore.SaveJob | src/storage/object_storage.rs:209-275 | the put is repeated exactly while its answer is lost and the budget lasts, and the last answer decides; it lands at most once and is acknowledged only for the version of that landing; a conflict means the condition does not hold as the store then stands, the worker's own unanswered landing included |
| Saving.JobStore.GetJob | src/storage/object_storage.rs:97-127 | returns the stored state of the highest iteration, and errs exactly for an empty store or one that cannot be read |
| Saving.TrySave | src/execution/worker.rs:817-848 | one attempt is a protocol write, or a stretch of moves - its own unacknowledged write if that landed, other workers' writes, the merge onto what is then stored - whose outcome may be written as the store stands or gives the copy up, or an error behind which the last put may have landed |
| Saving.SaveJobState | src/execution/worker.rs:789-862 | the retry loop is a chain of such attempts within the budget, ended by the first error; it runs out only if a write landed in the course of every attempt after the first, another worker's or the worker's own with its answer lost, and it needs at most two attempts and one more for each of those |
| ProtocolAnswers.LostAnswerCostsAnAttempt | src/storage/object_storage.rs:233-258 | in every run, a start whose write lands with its answer lost is merged onto that very write and is to be written again |
| ProtocolAnswers.ALoneWorkerRunsOut | src/execution/worker.rs:789-862 | for every budget, a run of one worker alone in which lost answers have used the budget up and the start is still to be written |
| ProtocolAnswers.UnansweredCloseIsDropped | src/execution/worker.rs:738-760 | in every run, a result that closes its iteration with its answer lost is given up as too late, though it is what closed the iteration |
| Saving.HandlersAreMoves | src/execution/worker.rs:457-485 | every caller's answer to a conflict keeps the version it re-read and is the merge move of the protocol, an error leaving the worker idle; which copies are given up, which err and which are written again is MergeLaws.StartHandlerLaw, ResultHandlerLaw and OtherHandlersLaw |
| MergeLaws.StartHandlerLaw | src/execution/worker.rs:457-485 | a refused start is given up, without an error, exactly if the stored task is another worker's; it errs exactly if the task is not stored, the job is another one, or the iteration closed with the task nobody else's; otherwise the merged start is written next |
| MergeLaws.ResultHandlerLaw | src/execution/worker.rs:705-760 | a refused result is given up exactly if the stored task is another worker's or its iteration closed, errs exactly if the task is not stored or the job is another one, and is merged and written otherwise |
| MergeLaws.OtherHandlersLaw | src/execution/worker.rs:371-408 | a first iteration somebody else created is read as it is, a later one is worked on only while open, and a close somebody else beat is dropped |
| MergeLaws.WrittenLaw | src/storage/object_storage.rs:209-275 | a write stores the copy under the next version, tasks and all save for what an execution claimed, and leaves every other iteration |
| MergeLaws.AfterWriteLaw | src/execution/worker.rs:789-862 | a stored iteration is worked on and a stored start executed, each under its new version; a stored result or close is done with |
| MoveLaws.WriteLaw | src/storage/object_storage.rs:240-256 | a copy is stored exactly where it is new and its number free, or its version is the stored one |
| MoveLaws.CreateLaw | src/execution/worker.rs:281-305 | an idle worker plans the first iteration exactly over an empty store |
| MoveLaws.PickLaw | src/core/job.rs:884-915 | a look at an open iteration starts the chosen task if that is free; with none free it closes the iteration if nothing in it moves, and otherwise starts the chosen task if settling freed it |
| MoveLaws.FinishLaw | src/execution/worker.rs:705-760 | the end of an execution is recorded, the iteration settled, and both saved at once; the copy is dropped exactly if nothing can be recorded |
| Cycles.FindDependencyCycle | src/core/job.rs:589-626 | the iterative three-state search returns only a position on a real cycle, returns none exactly when the graph has a topological rank, and terminates |
| Cycles.Explore | src/core/job.rs:605-622 | one exploration returns a position on a cycle, or leaves everything it reached done and ranked below what depends on it |
| Cycles.FollowEdge | src/core/job.rs:607-622 | one step keeps the stack a walk and the done positions ranked, with an unseen position fewer or less work on the stack |
| Cycles.CycleExcludesRank | src/core/job.rs:589-626 | a graph with a position on a cycle has no topological rank |
| Cascades.CascadeIsLeastFixpoint | src/core/job.rs:1563-1641 | the cascade puts out exactly the least set of blocked tasks closed under "has a dependency it cannot accept" |
| Cascades.CauseIsStrongestWhenJudged | src/core/job.rs:1626-1641 | a task put out is skipped for a failure exactly if, when its generation is judged, some dependency failed for good and it does not allow failures, or was skipped for a failure and it does not allow skips, and for a handed-down skip otherwise |
| CascadeLaws.CauseLaw | src/core/job.rs:1626-1641 | the same said of the task while it is still blocked, with the skip explained as well: some dependency fails it or passes it by when it is judged |
| CascadeLaws.GenerationLaw | src/core/job.rs:1563-1600 | one generation skips exactly the blocked tasks a dependency fails or passes by, names such a dependency as the reason, a failing one if there is one, and leaves the rest |
| CascadeLaws.CascadeLaw | src/core/job.rs:1563-1600 | the cascade is the generations one after the other, until no blocked task is failed or passed by |
| CascadeLaws.FailureTravels | src/core/job.rs:1563-1641 | whoever waits for a failure, or for a task skipped for one, and does not survive it is skipped, and for that failure unless another dependency was skipped by decision |
| Cascades.CascadeOnlyPutsOut | src/core/job.rs:1563-1600 | the cascade changes nothing but the status, reason and moment of blocked tasks it skips, and leaves nothing unreachable behind |
| Cascades.FindUnreachableDependency | src/core/job.rs:1626-1641 | names a dependency the task cannot accept, none exactly when none failed for good past its tolerance and none was skipped past it, and one that fails it whenever there is one |
| JobObject.Job.SkipUnreachableTasks | src/core/job.rs:1563-1600 | the indexed worklist, in any visiting order, never errors, ends in the state of the plain fixpoint and counts exactly the tasks it put out; each with the cause CascadeLaws.CauseLaw gives it |
| JobObject.Job.FindUnreachable | src/core/job.rs:1616-1621 | finds exactly the unreachable ones among the given tasks, each with what puts it out |
| JobObject.Job.IndexBlockedDependents | src/core/job.rs:1603-1612 | a task is listed under a dependency if and only if it is blocked and waits for it |
| Settling.DeriveIterationVerdict | src/core/job.rs:1209-1241 | the two-pass strike-off fails the iteration exactly if a task was skipped for a failure, or a terminal failure has no failure-tolerant dependent that completed or skipped itself |
| CascadeLaws.VerdictLaw | src/core/job.rs:1209-1241 | the verdict is failed if and only if a task is skipped for a failed dependency, or one failed for good with no failure-tolerant dependent completed or skipped by its executor |
| CascadeLaws.OpenLaw | src/core/job.rs:1170-1186 | an iteration stays open exactly for a running task, one that may be started, or one resting before its retry |
| CascadeLaws.ReleaseLaw | src/core/job.rs:1244-1258 | a blocked task is released exactly if each dependency is there and completed, or failed for good or skipped as the task tolerates |
| JobLaws.ClosingLaw | src/core/job.rs:1170-1198 | an iteration closes exactly if nothing in it moves, every task is settled and its status allows it; failed if a failure was not taken care of, completed otherwise, at the later reading; every other case leaves the job as it is |
| JobLaws.SettlingLaw | src/core/job.rs:1160-1198 | the same of the tasks with the cascade and the unblocking applied |
| Settling.VerdictIsReadBeforeTheCascade | src/core/job.rs:1209-1241 | the closing verdict can be read off the state before the cascade, by a condition that looks at no derived status |
| Settling.SettlingNeverDeadlocks | src/core/job.rs:1160-1198 | settling any non-empty, acyclic, dependency-closed graph leaves a task that is running, pickable or awaiting its retry, or every task resolved |
| Planning.DefineJob | src/core/job.rs:511-542 | accepts exactly the non-empty descriptions whose tasks are valid and whose references stay inside the description and form no cycle |
| Planning.AssembleJob | src/core/job.rs:281-322 | accepts exactly parts that register one executor per code, declare dependencies of tasks the description has, and make a legal description once merged |
| Planning.MergeDeclared | src/core/job.rs:472-496 | adds every declaration to the task it is for and keeps everything else, refused exactly if one is for no task of the description |
| Planning.DeclaredFor | src/core/job.rs:472-496 | a task waits for the union of its own and its declared dependencies |
| Planning.RegisterExecutors | src/core/job.rs:444-460 | registers every executor under its code, refused exactly if two different ones share a code |
| Planning.ResolvePositions | src/core/job.rs:551-583 | accepts exactly references to positions of this very description, and returns those positions in order |
| Planning.PlannedIterationIsSound | src/core/job.rs:667-721 | a legal description plans an iteration over exactly the minted identifiers that is non-empty, closed, ranked, unowned and unresolved |
| Planning.AddedTaskKeepsGraph | src/core/job.rs:805-854 | a task registered at runtime keeps the graph closed and acyclic and adds exactly itself; that it waits for what its definition names is JobLaws.AddedTaskIsAsDescribed |
| JobLaws.AddedTaskIsAsDescribed | src/core/job.rs:805-854 | a registered task waits for exactly the tasks its definition names, in order, is blocked if and only if it names any, and carries the creator and the limits; accepted exactly for a definition in order whose named tasks are held and whose creator is held and has not failed; nothing else changes |
| JobLaws.PlannedTaskIsAsDescribed | src/core/job.rs:667-721 | a planned task waits for exactly the tasks planned at the positions its definition names, in order, is blocked if and only if it names any, and carries the limits and no creator; the iteration is fresh |
| JobLaws.IterationStatusLaw | src/core/job.rs:1057-1098 | in progress, due, due later, spent or unscheduled, each exactly by status, budget, asked-for moment, start and interval; the moment named is the first at which the next iteration is due |
| JobLaws.NextIterationLaw | src/core/job.rs:766-786 | the next iteration is planned exactly when it is due, like a first one of the same job under the next number |
| JobLaws.StartWorkLaw | src/core/job.rs:1140-1145 | work begins on exactly the open iterations |
| JobLaws.LifetimeLaw | src/core/job.rs:953-972 | a running task past its lifetime fails for good, whatever its budget, and no other moves |
| JobLaws.StartTaskLaw | src/core/job.rs:856-864 | a start succeeds exactly on a held, free task whose deadlines are dates, and touches that task only |
| JobLaws.CompleteTaskLaw | src/core/job.rs:873-880 | a running task that is nobody else's completes within its lifetime with the very output given, if that is not too large; every refusal with its error |
| JobLaws.FailTaskLaw | src/core/job.rs:1433-1450 | a running task that is nobody else's fails under the reason and retry given, exactly what its execution created goes with it, and the rest stands |
| JobLaws.SkipTaskLaw | src/core/job.rs:1461-1470 | a blocked task, or a running one within its lifetime, that is nobody else's is skipped by decision, and the rest stands |
| Merges.MergedStartKeepsItsDependencies | src/core/job.rs:1276-1318 | a start merged into a newer stored state finds every dependency settled there the way its task accepts, while what its copy saw settled still stands |
| MergeLaws.PickedMergeLaw | src/core/job.rs:1276-1318 | a start is merged exactly into a state of its job that holds its task as nobody else's and takes its status; stolen is answered exactly where another worker owns the stored task, not found exactly where one side lacks it |
| MergeLaws.PickedMergeCarries | src/core/job.rs:1276-1318 | the started task is carried over as it is; the other tasks are the stored ones, outlived ones failed and unreachable ones skipped; the first moment of running stands |
| MergeLaws.ProcessedMergeLaw | src/core/job.rs:1336-1360 | a result is merged exactly into an open state of its job that holds its task as nobody else's; each refusal by owner, identifier or status, and without a change |
| MergeLaws.CarriedLaw | src/core/job.rs:1362-1390 | exactly the worker's owned and newly created tasks come from its copy, with its next start and its moment of running where it has them |
| MergeLaws.ProcessedMergeSettles | src/core/job.rs:1336-1396 | a merged result is settled: derived tasks, and closed exactly if nothing in them moves, failed if a failure was not taken care of |
| Merges.MergedStartIsSatisfiedExactlyWhen | src/core/job.rs:1276-1318 | a merged start finds every dependency accepted if and only if the stored state, before lifetimes and the cascade are derived on it, holds each of them completed, or failed for good or outlived or skipped or unreachable as its task survives |
| Merges.ReleasedIsSatisfied | src/core/job.rs:1244-1258 | a task settling releases has every dependency accepted in the state it is released in |
| Merges.DoomedIsPutOut | src/core/job.rs:1563-1641 | the tasks the cascade puts out are those in every set closed under "has a dependency it cannot accept" |
| ProtocolRevival.PutOutTaskIsRevived | src/core/job.rs:1276-1318 | a run whose last write puts a task that storage holds skipped for a dependency back to running, over that dependency |
| ProtocolOverrides.MergedStartFindsUnstartedOrOwn | src/core/job.rs:1276-1318 | in every run a merged start finds a task nobody ever started or one of its worker's own that runs or failed, and that one is what was read or the very start being saved, save for drift |
| ProtocolOverrides.SettledTasksGiveWayOnlyToOverrides | src/core/job.rs:1336-1396 | in every run a settled stored task becomes the writer's version if the move writes a copy naming its writer as the owner and stays as it is under every other move; where the two differ the write starts a task that was put out, or carries a task another worker took over, or one of its own that was failed |
| ProtocolHistory.CompletedTasksGiveWayOnlyToFormerOwners | src/core/job.rs:1336-1396 | in every run a completed task gives way only to a saved result of a worker that storage held it for at an earlier point of the run and that another worker took it over from |
| ProtocolHistory.WrittenWasStored | src/storage/object_storage.rs:209-275 | every state ever written was what storage held at some point of the run |
| ProtocolLedger.FreshStartsAreBounded | src/core/task.rs:976-1032 | in every run a stored task's attempts are its fresh starts corrected by what results brought back have lowered and raised them, and its fresh starts stay within its budget plus less than a budget for each result brought back |
| ProtocolLedger.AttemptsFallOnlyWhenTakenBack | src/core/job.rs:1336-1396 | in every run a stored task's attempts fall only as a worker's saved result brings back what another has taken over |
| ProtocolLedger.StoredLimitsNeverMove | src/core/task.rs:976-1032 | in every run a stored task keeps its budget, and its lifetime deadline once it has one |
| ProtocolProgress.ALoneWorkerClosesTheIteration | src/execution/worker.rs:227-942 | from every reachable state, with the clock past the newest iteration's lifetimes, one worker alone closes that iteration within five moves and six for each of its tasks |
| ProtocolProgress.LookGetsOn | src/core/job.rs:884-915 | a look at an open iteration with every lifetime outlived starts a task nobody ever started, or closes the iteration |
| ProtocolOverrides.ActIsOwned | src/execution/worker.rs:281-942 | each kind of move keeps what a copy may hold beyond the state it was read as, and what it may rely on in the store |
| ProtocolOwnership.WriteKeepsOthers | src/execution/worker.rs:789-862 | a write leaves every other worker's own tasks in storage as they were, save for what drifts by lifetimes, cascade and unblocking |
| ProtocolOwnership.ResultMergeIsOwned | src/core/job.rs:1336-1396 | a merged result differs from storage only by drift and by its worker's own version of tasks that were once started |
| Merges.ResultMergeChangesOnlyItsTask | src/core/job.rs:1367-1375 | a merged result leaves every other stored task alone if and only if the copy agrees with storage on the other tasks its worker owns |
| Merges.ResultMergeAddsOnlyCreatedTasks | src/core/job.rs:1367-1375 | where storage has lost no task since the copy was read, the merge adds exactly the tasks the copy gained |
| ProtocolWitnesses.RefusedTaskComesBack | src/core/job.rs:1336-1396 | a run in which a task one worker refused and another completed is put back to a pickable failure |
| ProtocolWitnesses.ReleasedTaskComesBack | src/execution/worker.rs:993-1013 | a run in which a task whose worker was released by its deadline, completed after a takeover, is put back to running |
| JobObject.Job.UnblockSatisfiedTasks | src/core/job.rs:1244-1258 | releases exactly the blocked tasks whose dependencies are all accepted in the state it was called on |
| JobObject.Job.FailTasksByLifetime | src/core/job.rs:953-972 | fails exactly the running tasks past their lifetime and never errors |
| JobObject.Job.BeginWork | src/core/job.rs:1140-1145 | moves the iteration to running where the status allows it and changes nothing otherwise |
| JobObject.Job.TrySettleIteration | src/core/job.rs:1160-1198 | in place, the state and the answer of settling, error cases included: open exactly while something in the tasks moves, and closed as failed exactly if a failure in them was not taken care of |
| JobObject.Job.CloseIfNothingMoves | src/core/job.rs:1170-1198 | closes exactly where nothing can move and all is resolved, as failed exactly if a failure was not taken care of, with the state and the answer of every other case |
| JobObject.Job.PickTaskToExecute | src/core/job.rs:884-915 | the state and the answer of one look for work in every case, errors included: a task pickable at the reading that found it, a settled iteration, or the earliest retry with nothing pickable |
| Protocol.PickMoveIsTheLook | src/execution/worker.rs:429-503 | the move of the protocol that takes a task up is that look followed by the start of the task it named |
| JobObject.Job.FindEarliestRetry | src/core/job.rs:929-940 | the least retry moment among the tasks awaiting one, and none exactly when there is none |
| JobObject.Job.RegisterTask | src/core/job.rs:805-854 | registers a task as described, waiting for exactly the tasks its definition names, under the minted identifier, or changes nothing and says why |
| JobObject.Job.TakeTask | src/core/job.rs:856-864 | starts the named task for the worker, or changes nothing and says why |
| JobObject.Job.FinishTask | src/core/job.rs:873-880 | completes a task the worker holds, or changes nothing and says why |
| JobObject.Job.RefuseTask | src/core/job.rs:1433-1450 | fails a task the worker holds, drops exactly what its execution created and counts it, or changes nothing and says why |
| JobObject.Job.SkipBranch | src/core/job.rs:1461-1470 | skips a task the worker holds by its executor's decision, or changes nothing and says why |
| JobObject.Job.MergeWithPickedTask | src/core/job.rs:1276-1318 | carries the start over with lifetime failures and the cascade derived again, or changes nothing and says why: stolen exactly where another worker owns the stored task |
| JobObject.Job.CarryOver | src/core/job.rs:1367-1375 | in any visiting order, the stored tasks with the worker's created and owned tasks carried over |
| JobObject.Job.MergeWithProcessedTask | src/core/job.rs:1336-1396 | carries a result over and settles what the two states make together; refuses a foreign job, a missing or stolen task and a closed iteration without a change |
| TaskRuns.BudgetsBoundEveryRun | src/core/task.rs:892-1032 | in every run of one task at most `max_attempts` starts are not takeovers, and the takeovers fit strictly into the lifetime: at most four under the default |
| TaskRuns.AttemptsAreFailuresPlusTheUnrefusedStart | src/core/task.rs:976-1117 | attempts are the recorded failures plus the one start not refused, within the budget; the deadline is the latest start's timeout cut off by the lifetime, counted from the first start |
| TaskRuns.SettledTasksAndLifetimesStand | src/core/task.rs:874-1117 | the lifetime deadline never moves once set, and completed, skipped and terminally failed tasks never change again |
| TaskRuns.RecordKeepsAccount | src/core/task.rs:976-1117 | one call of any kind, accepted or refused, keeps the account of attempts, deadlines and takeovers |
| Tasks.TaskCell.StartBy | src/core/task.rs:976-1032 | starts, retries or takes a task over, or leaves it untouched under the error the situation calls for |
| Tasks.TaskCell.CompleteWith | src/core/task.rs:1041-1063 | completes a running task within its lifetime, or leaves it untouched |
| Tasks.TaskCell.SkipFor | src/core/task.rs:1074-1096 | skips a blocked task, or a running one within its lifetime, or leaves it untouched |
| Tasks.TaskCell.FailWith | src/core/task.rs:1103-1117 | fails a running task under the retry it is given, or leaves it untouched |
| Tasks.TaskCell.Release | src/core/task.rs:957-961 | releases a blocked task and leaves any other alone |
| TaskLaws.AvailabilityLaw | src/core/task.rs:892-931 | a task may be picked exactly if it waits, its retry is due, or its worker is past the deadline and not the lifetime; a retry rests for one second |
| TaskLaws.StartLaw | src/core/task.rs:976-1032 | a start succeeds exactly on a free task whose deadlines are dates, counts an attempt unless it takes a running task over, and sets the earlier of timeout and lifetime as the deadline |
| TaskLaws.CompleteLaw | src/core/task.rs:1041-1063 | a result is taken exactly from a running task within its lifetime, and the output kept is the one given |
| TaskLaws.FailLaw | src/core/task.rs:1103-1117 | a refusal is taken exactly from a running task, past its lifetime too, with its reason and its retry |
| TaskLaws.JudgementLaw | src/core/task.rs:933-955 | a dependency is accepted, failing, passing by or undecided, each by status and tolerance alone; a skip for a failure fails who does not allow skips |
| Sessions.ExecutionPlansAllOrNothing | src/core/job.rs:1433-1499 | after any handle calls and any outcome the end is recorded: a failed execution leaves the task set it started from, any other leaves everything it registered; no dependency dangles and the task is resolved |
| Sessions.RecordingNeverFails | src/execution/worker.rs:628-701 | whatever the executor returned, recording it on a task its worker holds is accepted |
| SessionLaws.OutcomeLaw | src/execution/worker.rs:628-701 | an accepted output completes the task, a terminal refusal fails it for good, a skip skips it by decision; whatever else fails it as long as its budget lasts, at the later reading and with the executor's reason if it gave one, unless it is settled already |
| SessionLaws.CallLaw | src/execution/job_handle.rs:223-252 | what each call makes of the job, and exactly when it is accepted |
| SessionLaws.HandleLaw | src/execution/job_handle.rs:192-252 | a call changes the job exactly if the handle is open and the call accepted, and only closing closes the handle |
| Sessions.ClosedHandleChangesNothing | src/execution/job_handle.rs:192-219 | no sequence of calls after the handle is closed changes the job |
| Sessions.JobHandle.Close | src/execution/job_handle.rs:192-194 | closes the handle and leaves the job alone |
| Sessions.JobHandle.AddTask | src/execution/job_handle.rs:223-228 | an open handle registers the task as described, for its own execution, exactly if the domain accepts it; a closed one changes nothing and refuses |
| Sessions.JobHandle.CompleteTask | src/execution/job_handle.rs:230-232 | the domain's completion behind an open handle, accepted exactly if the domain accepts it, and nothing behind a closed one |
| Sessions.JobHandle.FailTask | src/execution/job_handle.rs:234-241 | the domain's failure with its rollback behind an open handle, nothing behind a closed one |
| Sessions.JobHandle.SkipTaskBranch | src/execution/job_handle.rs:243-245 | the skip of the execution's own task behind an open handle, nothing behind a closed one |
| Sessions.JobHandle.SetNextStartAt | src/execution/job_handle.rs:247-252 | the next start moment behind an open handle, nothing behind a closed one |
| PollSchedulers.PollScheduler.constructor | src/execution/scheduler.rs:390-410 | every job is queued at the given moment with the base interval, and the queue is their index |
| PollSchedulers.PollScheduler.TryClaimDueJob | src/execution/scheduler.rs:419-434 | claims the least due entry of the whole map, waits until the true minimum, or waits for an event with nothing queued; never errors |
| PollSchedulers.PollScheduler.RescheduleJob | src/execution/scheduler.rs:447-450 | records an end on exactly one job, as IsAsAsked and IsRecorded say in moments and intervals, and keeps the queue its index; refused exactly for an unknown job |
| PollSchedulers.PollScheduler.ReleaseJob | src/execution/scheduler.rs:454-462 | gives a claim back exactly if it is outstanding, so never refuses a claim the schedule handed out, and queues the job as IsAsAsked and IsReleased say in moments and intervals |
| PollSchedulers.PollScheduler.TransitionJob | src/execution/scheduler.rs:466-488 | replaces one job and leaves the queue the exact index of the queued jobs |
| ScheduleLaws.ReleasedAsAsked | src/execution/scheduler.rs:252-324 | work at hand is polled for at the reading, no work after the base interval and jitter, a retry or a due iteration at the reading if its moment passed and else no earlier unless ceiling or year cut the wait off, a stall after twice the last step up to the ceiling; all but a stall and an end of the iterations reset the step |
| ScheduleLaws.RecordedAsAsked | src/execution/scheduler.rs:273-324 | an end moves a queued job outright if it closed the iteration and only forward otherwise, with the step reset; under a claim it is gathered and the step stands; an exhausted job stays |
| ScheduleLaws.ReleasedAtTheEarliest | src/execution/scheduler.rs:252-324 | a claim given back after any ends is exhausted exactly if one of them or the start ended the iterations, and else queued at the earliest of the moments they ask for |
| ScheduleLaws.SettingLaw | src/execution/scheduler.rs:66-110 | a setting is taken exactly if the intervals stay ordered and within a year, and sets nothing else |
| Overtaking.NoJobOvertakesTwice | src/execution/scheduler.rs:419-488 | while a job whose moment has passed waits unclaimed, every look claims another job and none twice, for any claims, releases and ends that do not close its iteration |
| Overtaking.EarliestIsUnique | src/execution/scheduler.rs:419-434 | there is one earliest job, so the claim a run of the schedule makes is the claim the scheduler makes |
| Schedules.ReleaseAnswersForEveryEnd | src/execution/scheduler.rs:252-324 | a released job is exhausted if the task start or any end recorded meanwhile ended the iterations, and queued at the earliest of their polls otherwise; the moments themselves are ScheduleLaws.ReleasedAtTheEarliest |
| Schedules.EndsCommute | src/execution/scheduler.rs:137-146 | the poll set at release is the same for every permutation of the ends |
| Schedules.ClaimGathersEnds | src/execution/scheduler.rs:273-299 | the poll recorded under a claim answers for every end recorded so far and leaves the backoff step alone |
| Schedules.ExhaustedStays | src/execution/scheduler.rs:252-299 | no recorded end and no release queues an exhausted job again |
| Schedules.BackoffDoubles | src/execution/scheduler.rs:154-163 | after n stalled releases the step is the base interval times two to the n, cut off by the ceiling |
| Schedules.IntervalsStayInRange | src/execution/scheduler.rs:154-210 | for every configuration the setters can assemble, steps stay between base and ceiling, and every wait, even doubled, under twenty years |
| Schedules.ConfiguringStaysPollable | src/execution/scheduler.rs:50-125 | any sequence of accepted and refused settings leaves a base interval within a year and a ceiling at or above it |
| WorkerPools.WorkerPool.SpawnTaskStarts | src/execution/worker_pool.rs:141-161 | the new task starts are for exactly the jobs claimed, taken in due order ahead of everything still queued; no job due when it began is left beside an idle worker; it terminates and names the true next moment |
| WorkerPools.WorkerPool.TrySpawn | src/execution/worker_pool.rs:142-158 | sends one idle worker to the earliest job exactly if that is due at the reading, and changes nothing otherwise |
| WorkerPools.WorkerPool.StartExecutions | src/execution/worker_pool.rs:193-216 | every worker with a stored start executes under the job it started it for, the executions under way stay as they are, no other begins, and each worker stays in one place |
| WorkerPools.WorkerPool.CloseTaskStart | src/execution/worker_pool.rs:220-252 | gives back exactly the claim of the finished start, never refused, touches no other job, and puts its worker behind the pending starts under that job, or among the idle without a task |
| WorkerPools.WorkerPool.CloseExecution | src/execution/worker_pool.rs:254-270 | records the end on its job and no other, and frees its worker |
| WorkerPools.WorkerPool.Run | src/execution/worker_pool.rs:90-137 | for any wake-ups, by an end or by the timer, the pool goes through exactly those: each sends every pending start on under its job and leaves no job that was due unclaimed beside an idle worker, and at most one report is taken in between two; it stops only with no task start, no execution and no claim left |
| Retention.NewestIterationsRemain | src/execution/job_cleaner.rs:126-237 | under every interleaving of starts, late starts, reports, lost reports and reconciliations the newest min(n, retention) iterations stay stored; with every report handled exactly those are left if and only if no late start is left over |
| Retention.LateIsLeftOver | src/execution/job_cleaner.rs:80-83 | an iteration is left over exactly if some event created it late and no report and no reconciliation deleted it since |
| Retention.LateStartStays | src/execution/job_cleaner.rs:172-197 | for every retention, a run in which every report is handled, none is lost, and a deleted iteration created again stays stored |
| Retention.ReconciliationMakesUpForLostReports | src/execution/job_cleaner.rs:126-139 | a reconciliation that runs to its end leaves exactly the retained iterations, whatever was lost or created late before, as long as nothing new starts meanwhile and nothing late after it has listed |
| Retention.JobCleaner.DeleteIteration | src/execution/job_cleaner.rs:172-197 | deletes exactly the one iteration a report pushed past its job's boundary |
| Retention.JobCleaner.ProcessIterationMessages | src/execution/job_cleaner.rs:143-166 | handling a batch deletes exactly what each of its reports pushed out |
| Retention.JobCleaner.DeleteOutdatedIterations | src/execution/job_cleaner.rs:200-237 | leaves exactly the retained iterations of one job, counts what went and touches no other job |
| Retention.JobCleaner.ReconcileRegistryJobs | src/execution/job_cleaner.rs:126-139 | in any order of the jobs, leaves exactly the retained iterations of every registered job and touches no other |
| Retention.JobCleaner.FindJobMeta | src/execution/job_cleaner.rs:254-261 | the highest stored iteration of the job, none exactly when nothing is stored |

## Left out

- Sessions.ExecutionPlansAllOrNothing: starts from a job whose tasks all come from storage, attributed to no execution, which is the only state an execution is started from.
- WorkerPools.WorkerPool.Run: the wake-ups before the shutdown are a parameter, the reports taken in after it are only said to end, and the abort of a panicked join is not modelled.
- WorkerPools.WorkerPool.StartExecutions: which executor runs and what it returns enters the protocol as a move, not the pool.
- Retention.NewestIterationsRemain: cleanup is a model of its own beside the protocol, with the starts as its events; what a worker does inside an iteration created late is not followed.
- Saving.SaveJobState: the delays between attempts and between repeated puts, and the cancellation of a save, are left out.
- JobObject.Job.SkipUnreachableTasks: one reading of the clock stamps every task of a cascade, where the program reads it once per task.
- One description serves every worker of a run: instances that disagree about a job's tasks, limits, interval or retention are not modelled.
- Copy-on-write sharing of tasks between copies of a job is modelled by values: no copy sees another's change.
- The stack of the cycle search is two sequences and its vectors are sequences; job codes are natural numbers in the order their texts sort.
- Retention is a number of at least five per job, and a failed delete is a report or a reconciliation that never happens.
- Size limits are kept where they refuse a call; payload bytes, texts of errors and reasons, tracing and metrics are not modelled.
- The storage backends beyond their conditional-write contract, the read cache, object keys, codecs and the mapping of persisted state.
- Cancellation, panics, locks and the asynchronous runtime: each call is one atomic step, and a worker may stop between any two.
- The jitter of a poll is any value; that the drawn one stays within its bound is not stated.
- Builders, the registry, `FinishedIterations` and the outcome mapping would only add members that restate one branch.
