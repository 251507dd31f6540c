/**
 * What each operation on a job means, said in statuses, owners, dependencies and moments alone: none
 * of these laws speaks through the function it is about or through what that calls.
 */
module JobLaws {
  import opened Base
  import opened Tasks
  import opened TaskLaws
  import opened Cascades
  import opened Settling
  import opened CascadeLaws
  import opened Jobs
  import opened Planning

  predicate IsClosed(job: JobState) {
    job.status == JobCompleted || job.status == JobFailed
  }

  /** Somebody other than `worker` owns the task. */
  predicate IsHeldByAnother(t: Task, worker: Id) {
    t.owner.Some? && t.owner.value != worker
  }

  // ----- What a definition becomes -----

  /** A task nobody has touched, within the limits of its definition, that waits exactly if it was told to. */
  ghost predicate IsAsDescribed(t: Task, def: TaskDefinition, worker: Id, creator: Option<Id>) {
    && |t.dependsOn| == |def.dependsOn|
    && t.status == (if def.dependsOn == [] then Todo else Blocked)
    && t.createdByWorker == worker && t.createdByTask == creator && t.owner == None
    && t.timeout == def.timeout && t.maxLifetime == def.maxLifetime
    && t.maxAttempts == def.maxAttempts && t.tolerance == def.tolerance
    && t.attempt == 0 && t.retry == WhileBudgetLasts && t.output == "" && t.reason == NoReason
    && t.startedAt == t.completedAt == t.deadlineAt == t.lifetimeDeadlineAt == None
  }

  ghost predicate NamesHeld(refs: seq<TaskRef>, tasks: TaskMap) {
    forall k :: 0 <= k < |refs| ==> refs[k].Created? && refs[k].task in tasks
  }

  lemma {:induction false} CreatedLaw(refs: seq<TaskRef>, tasks: TaskMap)
    ensures ResolveCreated(refs, tasks).Ok? <==> NamesHeld(refs, tasks)
    ensures ResolveCreated(refs, tasks).Err? ==> ResolveCreated(refs, tasks).error == Other
    ensures ResolveCreated(refs, tasks).Ok? ==>
              var named := ResolveCreated(refs, tasks).value;
              |named| == |refs| && forall k :: 0 <= k < |refs| ==> refs[k] == Created(named[k])
  {
    if refs != [] {
      CreatedLaw(refs[1..], tasks);
      assert refs == [refs[0]] + refs[1..];
    }
  }

  /** The size, the limits and the tolerance of a definition are in order. */
  predicate IsInOrder(def: TaskDefinition, maxInputSize: nat) {
    && 0 < def.timeout <= def.maxLifetime <= MAX_SPAN
    && 0 < def.maxAttempts && def.inputSize <= maxInputSize
    && (def.tolerance != Tolerance(false, false) ==> def.dependsOn != [])
  }

  /**
   * A task registered at runtime is as described and waits for exactly the tasks its definition names,
   * in that order. It is taken exactly if the definition is in order, every task it names is held, and
   * its creator, if any, is held and has not failed. Nothing else of the job changes.
   */
  lemma AddedTaskIsAsDescribed(job: JobState, def: TaskDefinition, worker: Id, creator: Option<Id>, minted: Id)
    ensures var added := AddTask(job, def, worker, creator, minted);
            && (added.Ok? <==>
                  && IsInOrder(def, job.settings.maxInputSize)
                  && (creator.Some? ==> creator.value in job.tasks && job.tasks[creator.value].status != Failed)
                  && NamesHeld(def.dependsOn, job.tasks))
            && (added.Err? ==>
                  added.error == if IsInOrder(def, job.settings.maxInputSize) && creator.Some? && creator.value !in job.tasks
                                 then TaskNotFound else Other)
            && (added.Ok? ==>
                  var after := added.value;
                  && after == job.(tasks := after.tasks)
                  && after.tasks.Keys == job.tasks.Keys + {minted}
                  && (forall x :: x in job.tasks && x != minted ==> after.tasks[x] == job.tasks[x])
                  && IsAsDescribed(after.tasks[minted], def, worker, creator)
                  && forall k :: 0 <= k < |def.dependsOn| ==> def.dependsOn[k] == Created(after.tasks[minted].dependsOn[k]))
  {
    CreatedLaw(def.dependsOn, job.tasks);
  }

  /**
   * A planned task is as described and waits for exactly the tasks planned at the positions its
   * definition names, in that order. The iteration itself is fresh.
   */
  lemma PlannedTaskIsAsDescribed(def: JobDefinition, jobId: Id, ids: seq<Id>, worker: Id, now: Moment, i: nat)
    requires IsLegal(def) && |ids| == |def.initialTasks| && Distinct(ids) && i < |ids|
    ensures NewJob(def, jobId, ids, worker, now).Ok?
    ensures var job := NewJob(def, jobId, ids, worker, now).value;
            && job == JobState(jobId, 1, JobStarted, job.tasks, worker, now, None, None, None, None, def.settings)
            && (forall x :: x in job.tasks <==> x in ids)
            && IsAsDescribed(job.tasks[ids[i]], def.initialTasks[i], worker, None)
            && forall k :: 0 <= k < |def.initialTasks[i].dependsOn| ==>
                 var named := def.initialTasks[i].dependsOn[k];
                 named.Initial? && named.position < |ids| && job.tasks[ids[i]].dependsOn[k] == ids[named.position]
  {
    PlannedTasks(def, ids, worker, |ids|);
    assert ids[..|ids|] == ids;
    var tasks := PlanTasks(def.initialTasks, ids, worker, |ids|).value;
    assert PlannedAt(def, ids, worker, tasks, i);
    ResolvedInitial(def.initialTasks[i].dependsOn, ids);
    assert forall x :: x in ids <==> x in IdSet(ids);
  }

  // ----- The next iteration -----

  /**
   * The job wants another iteration and may have it by `now`: this one is closed, the budget is not
   * spent, and the moment an executor asked for, or else the start plus the interval, has come.
   */
  predicate IsDueAgain(job: JobState, now: Moment) {
    && IsClosed(job)
    && (job.settings.maxIterations.Some? ==> job.iterNum < job.settings.maxIterations.value)
    && (if job.nextStartAt.Some? then job.nextStartAt.value <= now
        else if job.settings.iterationInterval.Some? then
          && job.settings.iterationInterval.value <= MAX_SPAN
          && job.startedAt + job.settings.iterationInterval.value <= MAX_MOMENT
          && job.startedAt + job.settings.iterationInterval.value <= now
        else job.startedAt <= now)
  }

  lemma IterationStatusLaw(job: JobState, now: Moment)
    ensures var status := FindIterationStatus(job, now);
            && (status == InProgress <==> !IsClosed(job))
            && (status == Closed(Ready) <==> IsDueAgain(job, now))
            && (status == Closed(BudgetSpent) <==>
                  IsClosed(job) && job.settings.maxIterations.Some? && job.settings.maxIterations.value <= job.iterNum)
            && (status.Closed? && status.next.DueAt? ==>
                  var due := status.next.due; now < due && IsDueAgain(job, due) && !IsDueAgain(job, due - 1))
            && (status == Closed(Unscheduled) ==> forall at :: !IsDueAgain(job, at))
  {
  }

  /** The next iteration is planned exactly when it is due, like the first one but for its number. */
  lemma NextIterationLaw(job: JobState, def: JobDefinition, ids: seq<Id>, worker: Id, now: Moment)
    requires IsLegal(def) && |ids| == |def.initialTasks| && Distinct(ids)
    ensures var next := NextIterationOf(job, def, ids, worker, now);
            && (next.Ok? <==> IsDueAgain(job, now))
            && (next.Ok? ==>
                  && NewJob(def, job.id, ids, worker, now).Ok?
                  && next.value == NewJob(def, job.id, ids, worker, now).value.(iterNum := job.iterNum + 1))
  {
    IterationStatusLaw(job, now);
    PlannedTasks(def, ids, worker, |ids|);
  }

  // ----- Working on an iteration -----

  lemma StartWorkLaw(job: JobState, worker: Id, now: Moment)
    ensures StartWork(job, worker, now)
         == if IsClosed(job) then Err(InvalidStatusTransition)
            else Ok(job.(status := JobRunning, updatedBy := worker, runningAt := Some(now)))
  {
  }

  /** A running task past its lifetime fails for good, whatever its budget; nothing else moves. */
  lemma LifetimeLaw(tasks: TaskMap, now: Moment, x: Id)
    requires x in tasks
    ensures x in FailByLifetime(tasks, now) && FailByLifetime(tasks, now).Keys == tasks.Keys
    ensures var t, after := tasks[x], FailByLifetime(tasks, now)[x];
            if t.status == Started && HasOutlived(t, now)
            then && after.status == Failed && after.retry == WhileBudgetLasts && after.completedAt == Some(now)
                 && FailedForGood(after, now)
                 && after == t.(status := Failed, retry := WhileBudgetLasts, completedAt := Some(now), reason := after.reason)
            else after == t
  {
    AvailabilityLaw(tasks[x], now);
  }

  /** Only the one task changed, to `t`. */
  ghost predicate OnlyChanged(job: JobState, after: JobState, id: Id, t: Task) {
    id in job.tasks && after == job.(tasks := job.tasks[id := t], updatedBy := after.updatedBy)
  }

  lemma StartTaskLaw(job: JobState, id: Id, worker: Id, now: Moment)
    ensures var started := StartTask(job, id, worker, now);
            && (started.Ok? <==>
                  && id in job.tasks && IsFree(job.tasks[id], now) && now + job.tasks[id].timeout <= MAX_MOMENT
                  && (job.tasks[id].lifetimeDeadlineAt.Some? || now + job.tasks[id].maxLifetime <= MAX_MOMENT))
            && (started == Err(TaskNotFound) <==> id !in job.tasks)
            && (started.Ok? ==>
                  && OnlyChanged(job, started.value, id, started.value.tasks[id]) && started.value.updatedBy == worker
                  && started.value.tasks[id].status == Started && started.value.tasks[id].owner == Some(worker)
                  && Start(job.tasks[id], worker, now) == Ok(started.value.tasks[id]))
  {
    if id in job.tasks {
      StartLaw(job.tasks[id], worker, now);
    }
  }

  /** The worker may resolve the task: it is there and nobody else's. */
  predicate MayResolve(job: JobState, id: Id, worker: Id) {
    id in job.tasks && !IsHeldByAnother(job.tasks[id], worker)
  }

  /** Which refusal a resolution meets before the task itself is asked. */
  predicate IsRefusedFor<T>(r: Result<T>, job: JobState, id: Id, worker: Id) {
    && (r == Err(TaskNotFound) <==> id !in job.tasks)
    && (r == Err(TaskWorkerMismatch) <==> id in job.tasks && IsHeldByAnother(job.tasks[id], worker))
  }

  /** A running task of the worker's completes within its lifetime with the very output given, if that is not too large. */
  lemma CompleteTaskLaw(job: JobState, id: Id, output: string, worker: Id, now: Moment)
    ensures var completed := CompleteTask(job, id, output, worker, now);
            && (completed.Ok? <==>
                  && |output| <= job.settings.maxOutputSize && MayResolve(job, id, worker)
                  && job.tasks[id].status == Started && !HasOutlived(job.tasks[id], now))
            && (|output| <= job.settings.maxOutputSize ==> IsRefusedFor(completed, job, id, worker))
            && (job.settings.maxOutputSize < |output| ==> completed == Err(Other))
            && (completed.Ok? ==>
                  completed.value == job.(tasks := job.tasks[id :=
                    job.tasks[id].(status := Completed, output := output, completedAt := Some(now))]))
  {
  }

  lemma SkipTaskLaw(job: JobState, id: Id, reason: Reason, worker: Id, now: Moment)
    ensures var skipped := SkipTaskByExecutor(job, id, reason, worker, now);
            && (skipped.Ok? <==>
                  && MayResolve(job, id, worker)
                  && (job.tasks[id].status == Blocked
                      || (job.tasks[id].status == Started && !HasOutlived(job.tasks[id], now))))
            && IsRefusedFor(skipped, job, id, worker)
            && (skipped.Ok? ==>
                  skipped.value == job.(tasks := job.tasks[id :=
                    job.tasks[id].(status := Skipped(ExecutorDecision), reason := reason, completedAt := Some(now))]))
  {
  }

  /** A running task of the worker's fails, and with it goes everything its execution created. */
  lemma FailTaskLaw(job: JobState, id: Id, reason: Reason, retry: TaskRetry, worker: Id, now: Moment)
    ensures var failed := FailTask(job, id, reason, retry, worker, now);
            && (failed.Ok? <==> MayResolve(job, id, worker) && job.tasks[id].status == Started)
            && IsRefusedFor(failed, job, id, worker)
            && (failed.Ok? ==>
                  && failed.value == job.(tasks := failed.value.tasks)
                  && (forall x :: x in failed.value.tasks <==> x in job.tasks && job.tasks[x].createdByTask != Some(id))
                  && (forall x :: x in failed.value.tasks && x != id ==> failed.value.tasks[x] == job.tasks[x])
                  && (id in failed.value.tasks ==>
                        failed.value.tasks[id]
                        == job.tasks[id].(status := Failed, reason := reason, retry := retry, completedAt := Some(now))))
  {
  }

  /** A failed execution fails its task unless that is resolved already. */
  lemma RecordLaw(job: JobState, id: Id, reason: Reason, retry: TaskRetry, worker: Id, now: Moment)
    ensures var recorded := RecordExecutionFailure(job, id, reason, retry, worker, now);
            if id in job.tasks && (job.tasks[id].status == Completed || job.tasks[id].status == Failed || job.tasks[id].status.Skipped?)
            then recorded == Ok(job)
            else recorded == FailTask(job, id, reason, retry, worker, now)
  {
  }

  // ----- Settling -----

  /** Something in the iteration runs, may be started, or rests before its retry. */
  ghost predicate IsMoving(tasks: TaskMap, now: Moment) {
    exists id :: id in tasks && (tasks[id].status == Started || IsFree(tasks[id], now) || Rests(tasks[id], now))
  }

  ghost predicate IsAllSettled(tasks: TaskMap) {
    && (exists id :: id in tasks)
    && forall id :: id in tasks ==> tasks[id].status == Completed || tasks[id].status == Failed || tasks[id].status.Skipped?
  }

  /** A failure nobody in the iteration took care of: a task was skipped for one, or one is left unhandled. */
  ghost predicate HasLostTasks(tasks: TaskMap, now: Moment) {
    || (exists id :: id in tasks && tasks[id].status == Skipped(FailedDependency))
    || (exists f :: IsLeftUnhandled(tasks, f, now))
  }

  /**
   * An iteration in which nothing moves closes: failed exactly if a failure in it was not taken care
   * of, completed otherwise, under the worker's name and the later reading.
   */
  lemma ClosingLaw(job: JobState, worker: Id, now: Moment, closedAt: Moment)
    ensures var closed := CloseIfSettled(job, worker, now, closedAt);
            var status := if HasLostTasks(job.tasks, now) then JobFailed else JobCompleted;
            && (closed.result == Ok(false) <==> IsMoving(job.tasks, now))
            && (closed.result == Err(IterationDeadlock) <==> !IsMoving(job.tasks, now) && !IsAllSettled(job.tasks))
            && (closed.result == Ok(true) <==>
                  && !IsMoving(job.tasks, now) && IsAllSettled(job.tasks)
                  && (job.status == JobRunning || (job.status == JobStarted && HasLostTasks(job.tasks, now))))
            && (closed.result.Err? ==> closed.result == Err(IterationDeadlock) || closed.result == Err(InvalidStatusTransition))
            && closed.job == if closed.result == Ok(true)
                             then job.(status := status, updatedBy := worker, completedAt := Some(closedAt)) else job
  {
    OpenLaw(job.tasks, now);
    VerdictLaw(job.tasks, now);
  }

  /** Settling derives what the tasks imply, and closes the iteration if that leaves nothing moving. */
  lemma {:induction false} SettlingLaw(job: JobState, worker: Id, now: Moment, closedAt: Moment)
    ensures var settled := TrySettle(job, worker, now, closedAt);
            var derived := UnblockSatisfied(Cascade(job.tasks, now), now);
            var status := if HasLostTasks(derived, now) then JobFailed else JobCompleted;
            && settled.job.tasks == derived
            && (settled.result == Ok(false) <==> IsMoving(derived, now))
            && (settled.result == Ok(true) <==>
                  && !IsMoving(derived, now) && IsAllSettled(derived)
                  && (job.status == JobRunning || (job.status == JobStarted && HasLostTasks(derived, now))))
            && settled.job.(tasks := job.tasks)
               == if settled.result == Ok(true)
                  then job.(status := status, updatedBy := worker, completedAt := Some(closedAt)) else job
  {
    var derived := Derived(job.tasks, now);
    ClosingLaw(job.(tasks := derived), worker, now, closedAt);
  }
}
