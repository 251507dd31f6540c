/**
 * What a worker makes of a lost race, said on the stored state: which task is whose, which iteration
 * is open, and what is carried onto it. The merges, the handlers the save loop is called with, and
 * where a write leaves the worker.
 */
module MergeLaws {
  import opened Base
  import opened Tasks
  import opened Cascades
  import opened Settling
  import opened Jobs
  import opened JobLaws
  import opened Protocol
  import opened Saving

  predicate MayBecome(from: JobStatus, to: JobStatus) {
    if from == JobStarted then to == JobRunning || to == JobFailed
    else if from == JobRunning then to != JobStarted
    else to == JobStarted
  }

  /** The task is stored, in the same job, as another worker's. */
  predicate IsLost(stored: JobState, ours: JobState, worker: Id, id: Id) {
    stored.id == ours.id && id in stored.tasks && IsHeldByAnother(stored.tasks[id], worker)
  }

  /** The task is stored, in the same job, and the worker may write it. */
  predicate IsKept(stored: JobState, ours: JobState, worker: Id, id: Id) {
    stored.id == ours.id && id in stored.tasks && !IsHeldByAnother(stored.tasks[id], worker)
  }

  // ----- Merging a start -----

  lemma PickedMergeLaw(stored: JobState, ours: JobState, worker: Id, id: Id, now: Moment, later: Moment)
    ensures var merged := MergePicked(stored, ours, worker, id, now, later);
            && (merged.Ok? <==>
                  && IsKept(stored, ours, worker, id) && id in ours.tasks
                  && ours.tasks[id].status == Started && MayBecome(stored.status, ours.status))
            && (merged == Err(TaskWorkerMismatch) <==> IsLost(stored, ours, worker, id))
            && (merged == Err(TaskNotFound) <==>
                  stored.id == ours.id && (id !in stored.tasks || (IsKept(stored, ours, worker, id) && id !in ours.tasks)))
            && (merged.Err? ==> merged.error == TaskWorkerMismatch || merged.error == TaskNotFound || merged.error == Other)
  {
  }

  /** The started task is carried over as it is; the rest is the stored state, outlived and unreachable tasks put right. */
  lemma {:induction false} PickedMergeCarries(stored: JobState, ours: JobState, worker: Id, id: Id, now: Moment, later: Moment)
    requires MergePicked(stored, ours, worker, id, now, later).Ok?
    ensures var merged := MergePicked(stored, ours, worker, id, now, later).value;
            && merged.(tasks := stored.tasks)
               == stored.(status := ours.status, updatedBy := worker,
                          runningAt := if stored.runningAt == None then ours.runningAt else stored.runningAt)
            && merged.tasks.Keys == stored.tasks.Keys
            && id in ours.tasks && merged.tasks[id] == ours.tasks[id]
            && forall x :: x in stored.tasks && x != id ==>
                 && x in Cascade(FailByLifetime(stored.tasks, now), later)
                 && merged.tasks[x] == Cascade(FailByLifetime(stored.tasks, now), later)[x]
  {
    CascadeOnlyPutsOut(FailByLifetime(stored.tasks, now), later);
  }

  // ----- Merging a result -----

  /** The task comes from the worker's copy: the worker owns it there, or created it and nobody has it yet. */
  predicate IsTakenOver(stored: TaskMap, ours: TaskMap, worker: Id, x: Id) {
    && x in ours
    && (ours[x].owner == Some(worker)
        || (ours[x].owner == None && ours[x].createdByWorker == worker && x !in stored))
  }

  lemma CarriedLaw(stored: JobState, ours: JobState, worker: Id, now: Moment)
    ensures var carried := CarriedOver(stored, ours, worker, now);
            && (forall x :: x in carried.tasks <==> x in stored.tasks || IsTakenOver(stored.tasks, ours.tasks, worker, x))
            && (forall x :: x in carried.tasks ==>
                  carried.tasks[x] == if IsTakenOver(stored.tasks, ours.tasks, worker, x) then ours.tasks[x] else stored.tasks[x])
            && carried.status == JobRunning && carried.updatedBy == worker
            && (ours.nextStartAt.Some? ==> carried.nextStartAt == ours.nextStartAt)
            && (ours.nextStartAt == None ==> carried.nextStartAt == stored.nextStartAt)
            && (ours.runningAt.Some? ==> carried.runningAt == ours.runningAt)
            && (ours.runningAt == None && stored.status == JobRunning ==> carried.runningAt == stored.runningAt)
            && (ours.runningAt == None && stored.status != JobRunning ==> carried.runningAt == Some(now))
            && stored == carried.(tasks := stored.tasks, status := stored.status, updatedBy := stored.updatedBy,
                                  nextStartAt := stored.nextStartAt, runningAt := stored.runningAt)
  {
  }

  /** A result is merged exactly into an open iteration that still has its task, unless another worker took that. */
  lemma ProcessedMergeLaw(stored: JobState, ours: JobState, worker: Id, id: Id, now: Moment, closedAt: Moment)
    ensures var merged := MergeProcessed(stored, ours, worker, id, now, closedAt);
            && (merged.result == Err(TaskWorkerMismatch) <==> IsLost(stored, ours, worker, id))
            && (merged.result == Err(TaskNotFound) <==> stored.id == ours.id && id !in stored.tasks)
            && (merged.result == Err(Other) <==> stored.id != ours.id)
            && (merged.result == Err(IterationAlreadySettled) <==> IsKept(stored, ours, worker, id) && IsClosed(stored))
            && (IsKept(stored, ours, worker, id) && !IsClosed(stored) <==>
                  merged.result == Ok(()) || merged.result == Err(IterationDeadlock))
            && (!IsKept(stored, ours, worker, id) || IsClosed(stored) ==> merged.job == stored)
  {
    if IsKept(stored, ours, worker, id) && !IsClosed(stored) {
      SettlingLaw(CarriedOver(stored, ours, worker, now), worker, now, closedAt);
    }
  }

  /** A merged result is settled: the carried tasks are derived, and the iteration is closed if nothing in it moves. */
  lemma {:induction false} ProcessedMergeSettles(stored: JobState, ours: JobState, worker: Id, id: Id, now: Moment, closedAt: Moment)
    requires IsKept(stored, ours, worker, id) && !IsClosed(stored)
    ensures var merged, carried := MergeProcessed(stored, ours, worker, id, now, closedAt), CarriedOver(stored, ours, worker, now);
            var derived := UnblockSatisfied(Cascade(carried.tasks, now), now);
            && merged.job.tasks == derived
            && merged.job.(tasks := carried.tasks)
               == if !IsMoving(derived, now) && IsAllSettled(derived)
                  then carried.(status := if HasLostTasks(derived, now) then JobFailed else JobCompleted,
                                completedAt := Some(closedAt))
                  else carried
  {
    var carried := CarriedOver(stored, ours, worker, now);
    CarriedLaw(stored, ours, worker, now);
    SettlingLaw(carried, worker, now, closedAt);
    assert carried.(updatedBy := worker) == carried;
  }

  // ----- The handlers -----

  /**
   * A copy is given up, without an error, wherever another worker holds its task, and a result also
   * where its iteration has closed; it is an error that the task is gone, that the job is another
   * one, and, for a start, that the iteration takes none any more.
   */
  lemma StartHandlerLaw(worker: Id, job: JobState, task: Id, saved: JobState, now: Moment, later: Moment)
    requires task in job.tasks && job.tasks[task].status == Started && job.status == JobRunning
    ensures var answer := HandlerOf(worker)(SavingStart(job, task), saved, now, later);
            && (answer == Ok(Idle) <==> IsLost(saved, job, worker, task))
            && (answer == Err(TaskNotFound) <==> saved.id == job.id && task !in saved.tasks)
            && (answer == Err(Other) <==> saved.id != job.id || (IsKept(saved, job, worker, task) && IsClosed(saved)))
            && (IsKept(saved, job, worker, task) && !IsClosed(saved) <==>
                  MergePicked(saved, job, worker, task, now, later).Ok?
                  && answer == Ok(SavingStart(MergePicked(saved, job, worker, task, now, later).value, task)))
  {
    PickedMergeLaw(saved, job, worker, task, now, later);
  }

  lemma ResultHandlerLaw(worker: Id, job: JobState, task: Id, saved: JobState, now: Moment, later: Moment)
    ensures var answer := HandlerOf(worker)(SavingResult(job, task), saved, now, later);
            && (answer == Ok(Idle) <==>
                  IsLost(saved, job, worker, task) || (IsKept(saved, job, worker, task) && IsClosed(saved)))
            && (answer == Err(TaskNotFound) <==> saved.id == job.id && task !in saved.tasks)
            && (answer == Err(Other) <==> saved.id != job.id)
            && (IsKept(saved, job, worker, task) && !IsClosed(saved) <==>
                  answer == Ok(SavingResult(MergeProcessed(saved, job, worker, task, now, later).job, task)))
  {
    ProcessedMergeLaw(saved, job, worker, task, now, later);
  }

  /** A first iteration written by somebody else is taken as it is, a later one only while it is open; a close is dropped. */
  lemma OtherHandlersLaw(worker: Id, job: JobState, saved: JobState, now: Moment, later: Moment)
    ensures HandlerOf(worker)(SavingSettled(job), saved, now, later) == Ok(Idle)
    ensures var answer := HandlerOf(worker)(SavingIteration(job), saved, now, later);
            && (job.iterNum == 1 ==> answer == Ok(Advancing(saved)))
            && (job.iterNum != 1 && IsClosed(saved) ==> answer == Ok(Idle))
            && (job.iterNum != 1 && !IsClosed(saved) ==> answer == Ok(Open(saved)))
  {
  }

  // ----- The write itself -----

  /** A write stores the copy under the next version, without what an execution has claimed, and leaves every other iteration. */
  lemma WrittenLaw(world: World, job: JobState)
    ensures var after := Written(world, job);
            && after.nextVersion == world.nextVersion + 1 && after.births == world.births
            && job.iterNum in after.store
            && (forall k :: k != job.iterNum ==> (k in after.store <==> k in world.store))
            && (forall k :: k in world.store && k != job.iterNum ==> after.store[k] == world.store[k])
            && var stored := after.store[job.iterNum];
               && stored.version == world.nextVersion
               && stored.job == job.(version := Some(world.nextVersion), tasks := stored.job.tasks)
               && stored.job.tasks.Keys == job.tasks.Keys
               && forall x :: x in job.tasks ==> stored.job.tasks[x] == job.tasks[x].(createdByTask := None)
  {
  }

  /** A planned iteration is worked on, a start executed, each under its new version; anything else is done. */
  lemma AfterWriteLaw(phase: Phase, version: nat)
    requires IsSaving(phase)
    ensures var after := AfterWrite(phase, version);
            match phase
            case SavingIteration(job) => after == Open(job.(version := Some(version)))
            case SavingStart(job, task) => after == Executing(job.(version := Some(version)), task)
            case SavingResult(_, _) => after == Idle
            case SavingSettled(_) => after == Idle
  {
  }
}
