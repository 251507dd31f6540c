/** Each step of a worker keeps the shape of the protocol. */
module ProtocolSteps {
  import opened Base
  import opened Tasks
  import opened Cascades
  import opened Settling
  import opened Jobs
  import opened JobObject
  import opened Protocol
  import opened ProtocolInvariant
  import Sessions
  import Merges

  /** `after` holds the tasks of `job`, each with its creator and, unless it was started, its owner. */
  ghost predicate KeepsTasks(job: JobState, after: JobState) {
    && after.iterNum == job.iterNum && after.version == job.version
    && after.tasks.Keys == job.tasks.Keys
    && (forall x :: x in job.tasks ==> after.tasks[x].createdByTask == job.tasks[x].createdByTask)
  }

  lemma DerivingKeepsOwners(tasks: TaskMap, now: Moment)
    ensures Derived(tasks, now).Keys == tasks.Keys
    ensures forall x :: x in tasks ==>
              && Derived(tasks, now)[x].owner == tasks[x].owner
              && Derived(tasks, now)[x].createdByWorker == tasks[x].createdByWorker
              && Derived(tasks, now)[x].createdByTask == tasks[x].createdByTask
  {
    CascadeOnlyPutsOut(tasks, now);
    forall x | x in tasks
      ensures Derived(tasks, now)[x].owner == tasks[x].owner
      ensures Derived(tasks, now)[x].createdByWorker == tasks[x].createdByWorker
      ensures Derived(tasks, now)[x].createdByTask == tasks[x].createdByTask
    {
      assert LeftOrPutOut(tasks[x], Cascade(tasks, now)[x]);
    }
  }

  lemma SettlingKeepsTasks(job: JobState, worker: Id, now: Moment, closedAt: Moment)
    ensures KeepsTasks(job, TrySettle(job, worker, now, closedAt).job)
    ensures TrySettle(job, worker, now, closedAt).job.tasks == Derived(job.tasks, now)
    ensures TrySettle(job, worker, now, closedAt).result == Ok(false) ==>
              TrySettle(job, worker, now, closedAt).job.status == job.status
  {
    DerivingKeepsOwners(job.tasks, now);
  }

  // ----- Looking for work -----

  /** A copy of an open stored state with the same tasks descends from it. */
  lemma SameTasksAreBased(world: World, worker: Id, loaded: JobState, job: JobState)
    requires IsLoaded(world, loaded) && !IsProcessed(loaded)
    requires Belongs(world.births, loaded) && NoneClaimed(loaded) && KeepsTasks(loaded, job)
    ensures IsBased(world, worker, job) && NoneClaimed(job)
    ensures world.written[job.version.value].tasks.Keys == job.tasks.Keys
  {
  }

  lemma StartKeepsPhase(world: World, worker: Id, loaded: JobState, job: JobState, choice: Id, startAt: Moment)
    requires IsLoaded(world, loaded) && !IsProcessed(loaded)
    requires Belongs(world.births, loaded) && NoneClaimed(loaded) && KeepsTasks(loaded, job)
    requires job.status.JobRunning?
    ensures PhaseOk(world, worker, AfterStart(job, worker, choice, startAt))
  {
    if StartTask(job, choice, worker, startAt).Ok? {
      var started := StartTask(job, choice, worker, startAt).value;
      assert started.tasks.Keys == job.tasks.Keys;
      SameTasksAreBased(world, worker, loaded, started);
    }
  }

  lemma SettlingKeepsPhase(world: World, worker: Id, loaded: JobState, prepared: JobState, r: PickReadings,
                           choice: Id, startAt: Moment)
    requires IsLoaded(world, loaded) && !IsProcessed(loaded)
    requires Belongs(world.births, loaded) && NoneClaimed(loaded) && KeepsTasks(loaded, prepared)
    requires prepared.status.JobRunning?
    ensures PhaseOk(world, worker, AfterSettling(prepared, worker, r, choice, startAt))
  {
    var settled := TrySettle(prepared, worker, r.settleAt, r.closedAt);
    SettlingKeepsTasks(prepared, worker, r.settleAt, r.closedAt);
    assert KeepsTasks(loaded, settled.job);
    if settled.result == Ok(false) {
      StartKeepsPhase(world, worker, loaded, settled.job, choice, startAt);
    } else {
      SameTasksAreBased(world, worker, loaded, settled.job);
    }
  }

  lemma PickKeepsPhase(world: World, worker: Id, job: JobState, r: PickReadings, choice: Id, startAt: Moment)
    requires IsLoaded(world, job) && !IsProcessed(job) && Belongs(world.births, job) && NoneClaimed(job)
    ensures PhaseOk(world, worker, AfterPick(job, worker, r, choice, startAt))
  {
    if Prepared(job, worker, r).Ok? {
      var prepared := Prepared(job, worker, r).value;
      assert KeepsTasks(job, prepared);
      StartKeepsPhase(world, worker, job, prepared, choice, startAt);
      SettlingKeepsPhase(world, worker, job, prepared, r, choice, startAt);
    }
  }

  // ----- Merging -----

  /** A task held in common places two copies in one iteration, whose base tasks storage has kept. */
  lemma SharedTaskSharesIteration(world: World, n: nat, worker: Id, job: JobState, task: Id)
    requires WorldOk(world, n) && n in world.store
    requires IsBased(world, worker, job) && task in job.tasks && task in world.store[n].job.tasks
    ensures world.store[n].job.iterNum == job.iterNum == n
    ensures world.written[job.version.value].tasks.Keys <= world.store[n].job.tasks.Keys
  {
    assert StoredOk(world, n, n);
    assert WrittenOk(world, world.store[n].version);
    assert WrittenOk(world, job.version.value);
  }

  /** A copy on the newest stored state, which is still open. */
  lemma BasedOnNewest(world: World, n: nat, worker: Id, merged: JobState)
    requires WorldOk(world, n) && n in world.store && Belongs(world.births, merged)
    requires merged.version == world.store[n].job.version
    requires Descends(world.store[n].job, merged, worker)
    ensures IsBased(world, worker, merged) && world.written[merged.version.value] == world.store[n].job
  {
    NewestIsLoaded(world, n);
  }

  lemma PickedMergeKeepsTasks(saved: JobState, job: JobState, worker: Id, task: Id, now: Moment, later: Moment)
    requires MergePicked(saved, job, worker, task, now, later).Ok?
    requires NoneClaimed(saved) && NoneClaimed(job) && job.status.JobRunning?
    ensures var merged := MergePicked(saved, job, worker, task, now, later).value;
            && KeepsTasks(saved, merged) && NoneClaimed(merged) && !IsProcessed(saved)
            && merged.tasks[task] == job.tasks[task] && merged.status.JobRunning?
  {
    var failed := FailByLifetime(saved.tasks, now);
    CascadeOnlyPutsOut(failed, later);
    forall x | x in saved.tasks ensures Cascade(failed, later)[x].createdByTask.None? {
      assert LeftOrPutOut(failed[x], Cascade(failed, later)[x]);
    }
  }

  lemma PickedMergeKeepsPhase(world: World, n: nat, worker: Id, job: JobState, task: Id, now: Moment, later: Moment)
    requires WorldOk(world, n) && n in world.store && IsStarting(world, worker, job, task)
    requires MergePicked(world.store[n].job, job, worker, task, now, later).Ok?
    ensures IsStarting(world, worker, MergePicked(world.store[n].job, job, worker, task, now, later).value, task)
  {
    var saved := world.store[n].job;
    NewestIsLoaded(world, n);
    PickedMergeKeepsTasks(saved, job, worker, task, now, later);
    SameTasksAreBased(world, worker, saved, MergePicked(saved, job, worker, task, now, later).value);
  }

  lemma ProcessedMergeIsSettledCarry(saved: JobState, job: JobState, worker: Id, task: Id, now: Moment, later: Moment)
    ensures var merged := MergeProcessed(saved, job, worker, task, now, later);
            var settled := TrySettle(CarriedOver(saved, job, worker, now), worker, now, later);
            if saved.id == job.id && task in saved.tasks && CheckOwner(saved.tasks[task], worker).Ok? && !IsProcessed(saved)
            then merged == Outcome(settled.job, if settled.result.Ok? then Ok(()) else Err(settled.result.error))
            else merged.job == saved && merged.result.Err? && !merged.result.error.IterationDeadlock?
  {
  }

  lemma CarryingDescends(base: JobState, saved: JobState, job: JobState, worker: Id, now: Moment)
    requires Descends(base, job, worker) && base.tasks.Keys <= saved.tasks.Keys && !IsProcessed(saved)
    ensures Descends(saved, CarriedOver(saved, job, worker, now), worker)
    ensures CarriedOver(saved, job, worker, now).tasks.Keys == saved.tasks.Keys + job.tasks.Keys
  {
    forall x | x in job.tasks && x !in base.tasks
      ensures job.tasks[x].createdByWorker == worker && job.tasks[x].owner.None?
    {
      assert IsGained(base, job, worker, x);
    }
    Merges.ResultMergeAddsOnlyCreatedTasks(base.tasks, saved.tasks, job.tasks, worker);
    assert saved.tasks.Keys + (job.tasks.Keys - base.tasks.Keys) == saved.tasks.Keys + job.tasks.Keys;
  }

  lemma SettlingDescends(base: JobState, job: JobState, worker: Id, now: Moment, closedAt: Moment)
    requires Descends(base, job, worker)
    ensures Descends(base, TrySettle(job, worker, now, closedAt).job, worker)
    ensures TrySettle(job, worker, now, closedAt).job.tasks.Keys == job.tasks.Keys
  {
    SettlingKeepsTasks(job, worker, now, closedAt);
    DerivingKeepsOwners(job.tasks, now);
    var settled := TrySettle(job, worker, now, closedAt).job;
    forall x ensures IsGained(base, settled, worker, x) {
      assert IsGained(base, job, worker, x);
    }
  }

  lemma ProcessedMergeKeepsPhase(world: World, n: nat, worker: Id, job: JobState, task: Id, now: Moment, later: Moment)
    requires WorldOk(world, n) && n in world.store && IsBased(world, worker, job) && task in job.tasks
    requires task in world.store[n].job.tasks && !IsProcessed(world.store[n].job)
    ensures var carried := CarriedOver(world.store[n].job, job, worker, now);
            && PhaseOk(world, worker, SavingResult(TrySettle(carried, worker, now, later).job, task))
            && carried.tasks.Keys == world.store[n].job.tasks.Keys + job.tasks.Keys
            && carried.iterNum == job.iterNum == n
  {
    var saved := world.store[n].job;
    NewestIsLoaded(world, n);
    SharedTaskSharesIteration(world, n, worker, job, task);
    CarryingDescends(world.written[job.version.value], saved, job, worker, now);
    var carried := CarriedOver(saved, job, worker, now);
    SettlingDescends(saved, carried, worker, now, later);
    SettlingKeepsTasks(carried, worker, now, later);
    BasedOnNewest(world, n, worker, TrySettle(carried, worker, now, later).job);
  }

  // ----- Executing -----

  /**
   * `after` is `job` changed by an execution of `task`: base tasks all stay, what stays keeps its
   * creators, and only `task` and running tasks change otherwise.
   */
  ghost predicate Narrows(base: JobState, job: JobState, after: JobState, task: Id) {
    && after.iterNum == job.iterNum && after.version == job.version && after.status == job.status
    && base.tasks.Keys <= after.tasks.Keys <= job.tasks.Keys
    && (forall x :: x in after.tasks ==> after.tasks[x].createdByTask == job.tasks[x].createdByTask)
    && (forall x :: x in after.tasks ==> after.tasks[x].dependsOn == job.tasks[x].dependsOn)
    && (forall x :: x in after.tasks && x != task && !job.tasks[x].status.Started? ==> after.tasks[x] == job.tasks[x])
  }

  lemma OutcomeNarrows(base: JobState, job: JobState, task: Id, worker: Id, outcome: Sessions.ExecutorOutcome,
                       now: Moment, later: Moment)
    requires IsAttributed(base, job, task) && base.tasks.Keys <= job.tasks.Keys
    requires Sessions.ApplyOutcome(job, task, worker, outcome, now, later).Ok?
    ensures Narrows(base, job, Sessions.ApplyOutcome(job, task, worker, outcome, now, later).value, task)
  {
  }

  lemma CallNarrows(base: JobState, job: JobState, call: Sessions.Call, worker: Id, task: Id)
    requires IsAttributed(base, job, task) && base.tasks.Keys <= job.tasks.Keys
    requires !call.AddCall? && Sessions.Perform(job, call, worker, task).Ok?
    ensures Narrows(base, job, Sessions.Perform(job, call, worker, task).value, task)
  {
  }

  lemma NarrowingKeepsDescent(base: JobState, job: JobState, after: JobState, worker: Id, task: Id)
    requires Descends(base, job, worker) && IsAttributed(base, job, task) && Narrows(base, job, after, task)
    ensures Descends(base, after, worker) && IsAttributed(base, after, task)
  {
    forall x ensures IsGained(base, after, worker, x) {
      assert IsGained(base, job, worker, x);
    }
  }

  lemma AddingKeepsDescent(base: JobState, job: JobState, call: Sessions.Call, worker: Id, task: Id)
    requires Descends(base, job, worker) && IsAttributed(base, job, task) && !IsProcessed(job)
    requires call.AddCall? && call.minted !in job.tasks && Sessions.Perform(job, call, worker, task).Ok?
    ensures var after := Sessions.Perform(job, call, worker, task).value;
            && Descends(base, after, worker) && IsAttributed(base, after, task) && !IsProcessed(after)
            && after.version == job.version && after.iterNum == job.iterNum
            && after.tasks.Keys == job.tasks.Keys + {call.minted}
  {
    var after := Sessions.Perform(job, call, worker, task).value;
    forall x ensures IsGained(base, after, worker, x) {
      assert IsGained(base, job, worker, x);
    }
  }

  lemma CallKeepsPhase(world: World, worker: Id, job: JobState, task: Id, call: Sessions.Call)
    requires IsExecuting(world, worker, job, task) && (call.AddCall? ==> call.minted !in world.births)
    requires Sessions.Perform(job, call, worker, task).Ok?
    ensures var after := Sessions.Perform(job, call, worker, task).value;
            && BirthsExtend(world.births, Registered(world, call, after).births)
            && IsExecuting(Registered(world, call, after), worker, after, task)
  {
    var base := world.written[job.version.value];
    var after := Sessions.Perform(job, call, worker, task).value;
    if call.AddCall? {
      AddingKeepsDescent(base, job, call, worker, task);
    } else {
      CallNarrows(base, job, call, worker, task);
      NarrowingKeepsDescent(base, job, after, worker, task);
    }
  }

  lemma FinishKeepsPhase(world: World, worker: Id, job: JobState, task: Id, outcome: Sessions.ExecutorOutcome,
                         now: Moment, later: Moment, settleAt: Moment, closedAt: Moment)
    requires IsExecuting(world, worker, job, task)
    requires Sessions.ApplyOutcome(job, task, worker, outcome, now, later).Ok?
    ensures var applied := Sessions.ApplyOutcome(job, task, worker, outcome, now, later).value;
            && PhaseOk(world, worker, SavingResult(TrySettle(applied, worker, settleAt, closedAt).job, task))
            && Narrows(world.written[job.version.value], job, applied, task)
  {
    var base := world.written[job.version.value];
    var applied := Sessions.ApplyOutcome(job, task, worker, outcome, now, later).value;
    OutcomeNarrows(base, job, task, worker, outcome, now, later);
    NarrowingKeepsDescent(base, job, applied, worker, task);
    SettlingDescends(base, applied, worker, settleAt, closedAt);
    SettlingKeepsTasks(applied, worker, settleAt, closedAt);
  }
}
