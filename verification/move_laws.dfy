/** What each move of the protocol does to the store and to the worker's copy, said in tasks and statuses. */
module MoveLaws {
  import opened Base
  import opened Tasks
  import opened TaskLaws
  import opened Cascades
  import opened Settling
  import opened Jobs
  import opened JobLaws
  import opened JobObject
  import opened Planning
  import opened Protocol
  import Sessions

  ghost predicate CanPlan(def: JobDefinition, world: World, ids: seq<Id>) {
    |ids| == |def.initialTasks| && AreFresh(world, ids)
  }

  /** The first iteration is planned by an idle worker exactly over an empty store, and nothing is stored by that. */
  lemma CreateLaw(def: JobDefinition, world: World, worker: Id, phase: Phase, jobId: Id, ids: seq<Id>, now: Moment)
    requires IsLegal(def)
    ensures var (after, next) := ActCreate(def, world, worker, phase, jobId, ids, now);
            && after == world.(births := after.births)
            && (if phase == Idle && world.store == map[] && CanPlan(def, world, ids)
                then && NewJob(def, jobId, ids, worker, now).Ok?
                     && next == SavingIteration(NewJob(def, jobId, ids, worker, now).value)
                else (after, next) == (world, phase))
  {
    if CanPlan(def, world, ids) {
      PlannedTasks(def, ids, worker, |ids|);
    }
  }

  /** A write stores the copy exactly where its version, or its being new, still stands. */
  lemma WriteLaw(world: World, phase: Phase, isAcknowledged: bool)
    ensures var (after, next) := ActWrite(world, phase, isAcknowledged);
            var stands := && (phase.SavingIteration? || phase.SavingSettled? || phase.SavingStart? || phase.SavingResult?)
                          && (if phase.job.version == None then phase.job.iterNum !in world.store
                              else && phase.job.iterNum in world.store
                                   && Some(world.store[phase.job.iterNum].version) == phase.job.version);
            if stands
            then && after == Written(world, phase.job)
                 && next == if isAcknowledged then AfterWrite(phase, world.nextVersion) else phase
            else (after, next) == (world, phase)
  {
  }

  /** The calls of an execution reach its own copy and nothing else; a minted identifier is new. */
  lemma CallMoveLaw(world: World, worker: Id, phase: Phase, call: Sessions.Call)
    ensures var (after, next) := ActCall(world, worker, phase, call);
            && after.store == world.store && after.nextVersion == world.nextVersion
            && (if phase.Executing? && (call.AddCall? ==> call.minted !in world.births)
                   && Sessions.Perform(phase.job, call, worker, phase.task).Ok?
                then next == Executing(Sessions.Perform(phase.job, call, worker, phase.task).value, phase.task)
                else next == phase)
  {
  }

  /** `after` is `job` with what its tasks imply derived, and closed if that leaves nothing moving. */
  ghost predicate IsSettledFrom(job: JobState, worker: Id, now: Moment, closedAt: Moment, after: JobState) {
    && after.tasks == UnblockSatisfied(Cascade(job.tasks, now), now)
    && after.(tasks := job.tasks)
       == if IsToClose(job, after.tasks, now)
          then job.(status := if HasLostTasks(after.tasks, now) then JobFailed else JobCompleted,
                    updatedBy := worker, completedAt := Some(closedAt))
          else job
  }

  ghost predicate IsToClose(job: JobState, derived: TaskMap, now: Moment) {
    && !IsMoving(derived, now) && IsAllSettled(derived)
    && (job.status == JobRunning || (job.status == JobStarted && HasLostTasks(derived, now)))
  }

  lemma {:induction false} SettlingSettles(job: JobState, worker: Id, now: Moment, closedAt: Moment)
    ensures IsSettledFrom(job, worker, now, closedAt, TrySettle(job, worker, now, closedAt).job)
    ensures TrySettle(job, worker, now, closedAt).result == Ok(true)
            <==> IsToClose(job, UnblockSatisfied(Cascade(job.tasks, now), now), now)
    ensures TrySettle(job, worker, now, closedAt).result == Ok(false)
            <==> IsMoving(UnblockSatisfied(Cascade(job.tasks, now), now), now)
  {
    SettlingLaw(job, worker, now, closedAt);
  }

  /** A start of `choice` is to be saved if it succeeds, and nothing is if not. */
  ghost predicate IsStartOf(job: JobState, worker: Id, choice: Id, startAt: Moment, next: Phase) {
    var started := StartTask(job, choice, worker, startAt);
    next == if started.Ok? then SavingStart(started.value, choice) else Idle
  }

  /** `job` as a look finds it: being worked on, with outlived tasks failed. */
  ghost predicate IsLookedAt(job: JobState, worker: Id, r: PickReadings, found: JobState) {
    && found.tasks == FailByLifetime(job.tasks, r.failAt)
    && found.(tasks := job.tasks)
       == if job.status == JobRunning then job
          else job.(status := JobRunning, updatedBy := worker, runningAt := Some(r.workAt))
  }

  ghost predicate IsFreeIn(tasks: TaskMap, x: Id, now: Moment) {
    x in tasks && IsFree(tasks[x], now)
  }

  /**
   * The end of an execution is recorded, the iteration settled, and both are to be saved at once; the
   * copy is dropped exactly if nothing can be recorded.
   */
  lemma FinishLaw(world: World, worker: Id, phase: Phase, outcome: Sessions.ExecutorOutcome,
                  now: Moment, later: Moment, settleAt: Moment, closedAt: Moment)
    requires phase.Executing? && settleAt <= closedAt
    ensures var (after, next) := ActFinish(world, worker, phase, outcome, now, later, settleAt, closedAt);
            var recorded := Sessions.ApplyOutcome(phase.job, phase.task, worker, outcome, now, later);
            && after == world
            && (recorded.Err? <==> next == Idle)
            && (recorded.Ok? ==>
                  next.SavingResult? && next.task == phase.task
                  && IsSettledFrom(recorded.value, worker, settleAt, closedAt, next.job))
  {
    var recorded := Sessions.ApplyOutcome(phase.job, phase.task, worker, outcome, now, later);
    if recorded.Ok? {
      SettlingSettles(recorded.value, worker, settleAt, closedAt);
    }
  }

  lemma PreparedLaw(job: JobState, worker: Id, r: PickReadings)
    ensures var prepared := Prepared(job, worker, r);
            && (prepared.Ok? <==> !IsClosed(job))
            && (prepared.Err? ==> prepared.error == InvalidStatusTransition)
            && (prepared.Ok? ==>
                  && prepared.value.tasks == FailByLifetime(job.tasks, r.failAt)
                  && prepared.value.(tasks := job.tasks)
                     == if job.status == JobRunning then job
                        else job.(status := JobRunning, updatedBy := worker, runningAt := Some(r.workAt)))
  {
  }

  /** A look may name exactly the free tasks. */
  lemma PickableLaw(pickup: TaskPickup, tasks: TaskMap, now: Moment)
    ensures IsPickOf(Ok(pickup), tasks, now) <==> pickup.PickedUp? && IsFreeIn(tasks, pickup.id, now)
  {
    if pickup.PickedUp? && pickup.id in tasks {
      AvailabilityLaw(tasks[pickup.id], now);
    }
  }

  ghost predicate IsAnyFree(tasks: TaskMap, now: Moment) {
    exists x :: IsFreeIn(tasks, x, now)
  }

  lemma FreeIsPickable(tasks: TaskMap, now: Moment, choice: Id)
    ensures AnyPickable(tasks, now) <==> IsAnyFree(tasks, now)
    ensures IsFreeIn(tasks, choice, now) <==> choice in tasks && CheckAvailability(tasks[choice], now).Pickable?
  {
    forall x | x in tasks ensures IsFreeIn(tasks, x, now) <==> CheckAvailability(tasks[x], now).Pickable? {
      AvailabilityLaw(tasks[x], now);
    }
  }

  /** What a look with no task free leads to. */
  lemma SettlingLookLaw(found: JobState, worker: Id, r: PickReadings, choice: Id, startAt: Moment) returns (settled: JobState)
    ensures IsSettledFrom(found, worker, r.settleAt, r.closedAt, settled)
    ensures var next := AfterSettling(found, worker, r, choice, startAt);
            if IsToClose(found, settled.tasks, r.settleAt) then next == SavingSettled(settled)
            else if IsMoving(settled.tasks, r.settleAt) && IsFreeIn(settled.tasks, choice, r.findAgainAt)
            then IsStartOf(settled, worker, choice, startAt, next)
            else next == Idle
  {
    settled := TrySettle(found, worker, r.settleAt, r.closedAt).job;
    SettlingSettles(found, worker, r.settleAt, r.closedAt);
    FreeIsPickable(settled.tasks, r.findAgainAt, choice);
  }

  /**
   * A look at an open iteration starts the chosen task if it is free. With no task free, the iteration
   * is settled first: it is closed if nothing in it moves, and otherwise the chosen task is started if
   * settling has freed it.
   */
  lemma PickLaw(job: JobState, worker: Id, r: PickReadings, choice: Id, startAt: Moment)
    returns (found: JobState, settled: JobState)
    requires !IsClosed(job)
    ensures IsLookedAt(job, worker, r, found) && IsSettledFrom(found, worker, r.settleAt, r.closedAt, settled)
    ensures var next := AfterPick(job, worker, r, choice, startAt);
            if IsAnyFree(found.tasks, r.findAt) then
              if IsFreeIn(found.tasks, choice, r.findAt) then IsStartOf(found, worker, choice, startAt, next) else next == Idle
            else if IsToClose(found, settled.tasks, r.settleAt) then next == SavingSettled(settled)
            else if IsMoving(settled.tasks, r.settleAt) && IsFreeIn(settled.tasks, choice, r.findAgainAt)
            then IsStartOf(settled, worker, choice, startAt, next)
            else next == Idle
  {
    PreparedLaw(job, worker, r);
    found := Prepared(job, worker, r).value;
    FreeIsPickable(found.tasks, r.findAt, choice);
    settled := SettlingLookLaw(found, worker, r, choice, startAt);
  }
}
