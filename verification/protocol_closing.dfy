/**
 * How iterations end and begin in every run, read off the stored tasks, budgets and moments: the
 * status a closed iteration carries, and the moment the next one starts.
 */
module ProtocolClosing {
  import opened Base
  import opened Tasks
  import opened TaskLaws
  import opened Cascades
  import opened Settling
  import opened CascadeLaws
  import opened Jobs
  import opened JobLaws
  import opened Planning
  import opened Protocol
  import opened ProtocolInvariant
  import opened ProtocolJobs
  import opened ProtocolSoundness
  import opened ProtocolRuns
  import opened ProtocolSchedule

  /** The task failed, and nobody who waited for it and survives failures completed or was skipped by decision. */
  ghost predicate IsUntended(tasks: TaskMap, f: Id) {
    && f in tasks && tasks[f].status == Failed
    && forall x :: x in tasks && f in tasks[x].dependsOn && tasks[x].tolerance.allowsFailed ==>
         tasks[x].status != Completed && tasks[x].status != Skipped(ExecutorDecision)
  }

  /**
   * The iteration ended with every task completed, skipped, or failed for good, and its status is
   * what these earned it: failed exactly if a task was skipped for a failure or a failure is untended.
   */
  ghost predicate IsEarned(job: JobState) {
    && job.completedAt.Some? && IsAllSettled(job.tasks)
    && (forall x :: x in job.tasks && job.tasks[x].status == Failed ==> FailedForGood(job.tasks[x], job.completedAt.value))
    && (job.status == JobFailed <==>
          || (exists x :: x in job.tasks && job.tasks[x].status == Skipped(FailedDependency))
          || (exists f :: IsUntended(job.tasks, f)))
    && (job.status != JobFailed ==> job.status == JobCompleted)
  }

  lemma VerdictIsEarned(job: JobState)
    requires IsClosed(job) && VerdictOk(job)
    ensures IsEarned(job)
  {
    var at := job.completedAt.value;
    OpenLaw(job.tasks, at);
    forall x | x in job.tasks && job.tasks[x].status == Failed ensures FailedForGood(job.tasks[x], at) {
      SettledLaw(job.tasks[x], at);
    }
    forall f ensures IsUntended(job.tasks, f) <==> IsLeftUnhandled(job.tasks, f, at) {
    }
  }

  /** Every closed iteration of every run carries the status its tasks earned it. */
  lemma {:induction false} ClosedStatusIsEarned(def: JobDefinition, moves: seq<(Id, Move)>, k: nat)
    requires IsLegal(def)
    requires k in Run(def, moves).world.store && IsClosed(Run(def, moves).world.store[k].job)
    ensures IsEarned(Run(def, moves).world.store[k].job)
  {
    var n := RunKeepsSystem(def, moves);
    var world := Run(def, moves).world;
    assert StoredOk(world, n, k);
    assert SoundAt(world, world.store[k].version);
    VerdictIsEarned(world.store[k].job);
  }

  // ----- What follows -----

  /**
   * A worker that has read an iteration works on it while it is open, and plans the next one exactly
   * when that is due; otherwise it is done.
   */
  lemma AdvancesExactlyWhenDue(def: JobDefinition, world: World, worker: Id, job: JobState, ids: seq<Id>, now: Moment)
    requires IsLegal(def) && |ids| == |def.initialTasks| && AreFresh(world, ids)
    ensures var (after, next) := Act(def, world, worker, Advancing(job), Advance(ids, now));
            && after.store == world.store
            && (next == Open(job) <==> !IsClosed(job))
            && (next == Idle <==> IsClosed(job) && !IsDueAgain(job, now))
            && (next.SavingIteration? <==> IsDueAgain(job, now))
            && (next.SavingIteration? ==>
                  && NewJob(def, job.id, ids, worker, now).Ok?
                  && next.job == NewJob(def, job.id, ids, worker, now).value.(iterNum := job.iterNum + 1))
  {
    IterationStatusLaw(job, now);
    NextIterationLaw(job, def, ids, worker, now);
  }

  lemma DueIsDueAgain(job: JobState, now: Moment)
    requires NextIterationStartAt(job).Some? && NextIterationStartAt(job).value <= now
    ensures IsDueAgain(job, now)
  {
  }

  /** Every iteration of every run but the first was started when the closed one before it was due again. */
  lemma {:induction false} LaterIterationsWereDue(def: JobDefinition, moves: seq<(Id, Move)>, k: nat)
    requires IsLegal(def)
    requires k in Run(def, moves).world.store && 1 < k
    ensures var store := Run(def, moves).world.store;
            k - 1 in store && IsDueAgain(store[k - 1].job, store[k].job.startedAt)
  {
    IterationsKeepTheirCalendar(def, moves, k);
    DueIsDueAgain(Run(def, moves).world.store[k - 1].job, Run(def, moves).world.store[k].job.startedAt);
  }
}
