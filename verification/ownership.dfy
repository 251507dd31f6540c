/**
 * Who may change what of a task. A copy of an iteration drifts from the state it was read as: tasks
 * outlive their lifetime, are put out or are released. Everything else is done by a task's owner.
 */
module Ownership {
  import opened Base
  import opened Tasks
  import opened Cascades
  import opened Settling
  import opened Jobs

  /** Settled whatever the clock says: completed, skipped, or failed with nothing left to retry. */
  predicate IsFinal(t: Task) {
    || t.status.Completed?
    || t.status.Skipped?
    || (t.status.Failed? && (t.retry.Never? || t.attempt >= t.maxAttempts))
  }

  /** Skipped by the cascade rather than by its executor. */
  predicate IsPutOut(t: Task) {
    t.status.Skipped? && t.status.cause != ExecutorDecision
  }

  /**
   * A task has an owner exactly if it was ever started; from then on it has a lifetime and a first
   * attempt, and its attempts never exceed its budget.
   */
  predicate WellOwned(t: Task) {
    && (t.owner.None? <==> t.status.Todo? || t.status.Blocked? || IsPutOut(t))
    && (t.owner.None? <==> t.lifetimeDeadlineAt.None?)
    && (t.owner.None? <==> t.attempt == 0)
    && t.attempt <= t.maxAttempts && 0 < t.maxAttempts
  }

  /** What no later version of a task changes: its budget, and its lifetime once that is counted. */
  predicate KeepsLimits(a: Task, b: Task) {
    b.maxAttempts == a.maxAttempts && (a.lifetimeDeadlineAt.Some? ==> b.lifetimeDeadlineAt == a.lifetimeDeadlineAt)
  }

  ghost predicate OwnedAt(tasks: TaskMap, x: Id) {
    x in tasks ==> WellOwned(tasks[x])
  }

  ghost predicate AllOwned(tasks: TaskMap) {
    forall x {:trigger OwnedAt(tasks, x)} :: OwnedAt(tasks, x)
  }

  /** `b` is `a`, or what a look for work, a settling or a merge derives from it on its own. */
  ghost predicate Drifts(a: Task, b: Task) {
    || b == a.(createdByTask := b.createdByTask)
    || (&& a.status.Started? && b.status.Failed?
        && b == a.(status := b.status, reason := b.reason, retry := b.retry, completedAt := b.completedAt,
                   createdByTask := b.createdByTask))
    || (&& a.status.Blocked? && (b.status.Todo? || IsPutOut(b))
        && b == a.(status := b.status, reason := b.reason, completedAt := b.completedAt, createdByTask := b.createdByTask))
  }

  ghost predicate DriftsAt(a: TaskMap, b: TaskMap, x: Id) {
    x in a ==> x in b && Drifts(a[x], b[x])
  }

  ghost predicate AllDrift(a: TaskMap, b: TaskMap) {
    forall x {:trigger DriftsAt(a, b, x)} :: DriftsAt(a, b, x)
  }

  lemma DriftFacts(a: Task, b: Task)
    requires Drifts(a, b)
    ensures b.owner == a.owner && b.attempt == a.attempt && KeepsLimits(a, b) && (WellOwned(a) ==> WellOwned(b))
    ensures IsFinal(a) ==> Restored(b) == Restored(a)
    ensures IsFinal(b) && !IsFinal(a) ==> (a.status.Started? && b.status.Failed?) || (a.status.Blocked? && IsPutOut(b))
    ensures b.status.Started? ==> a.status.Started?
  {
  }

  lemma DriftsOn(a: Task, b: Task, c: Task)
    requires Drifts(a, b) && Drifts(b, c)
    ensures Drifts(a, c)
  {
  }

  lemma AllDriftOn(a: TaskMap, b: TaskMap, c: TaskMap)
    requires AllDrift(a, b) && AllDrift(b, c)
    ensures AllDrift(a, c)
  {
    forall x ensures DriftsAt(a, c, x) {
      assert DriftsAt(a, b, x) && DriftsAt(b, c, x);
      if x in a {
        DriftsOn(a[x], b[x], c[x]);
      }
    }
  }

  lemma DriftKeepsOwned(a: TaskMap, b: TaskMap)
    requires AllDrift(a, b) && AllOwned(a) && b.Keys == a.Keys
    ensures AllOwned(b)
  {
    forall x ensures OwnedAt(b, x) {
      assert OwnedAt(a, x) && DriftsAt(a, b, x);
      if x in a {
        DriftFacts(a[x], b[x]);
      }
    }
  }

  lemma LifetimesDrift(tasks: TaskMap, now: Moment)
    ensures AllDrift(tasks, FailByLifetime(tasks, now))
  {
  }

  lemma {:induction false} CascadeDrifts(tasks: TaskMap, now: Moment)
    ensures AllDrift(tasks, Cascade(tasks, now))
  {
    CascadeOnlyPutsOut(tasks, now);
    forall x ensures DriftsAt(tasks, Cascade(tasks, now), x) {
      assert x in tasks ==> LeftOrPutOut(tasks[x], Cascade(tasks, now)[x]);
    }
  }

  lemma DerivingDrifts(tasks: TaskMap, now: Moment)
    ensures AllDrift(tasks, Derived(tasks, now)) && Derived(tasks, now).Keys == tasks.Keys
  {
    CascadeOnlyPutsOut(tasks, now);
    CascadeDrifts(tasks, now);
    AllDriftOn(tasks, Cascade(tasks, now), Derived(tasks, now));
  }

  lemma SettlingDrifts(job: JobState, worker: Id, now: Moment, closedAt: Moment)
    ensures var settled := TrySettle(job, worker, now, closedAt).job;
            && AllDrift(job.tasks, settled.tasks) && settled.tasks.Keys == job.tasks.Keys
            && settled.version == job.version && settled.iterNum == job.iterNum
  {
    DerivingDrifts(job.tasks, now);
    var derived := job.(tasks := Derived(job.tasks, now));
    assert CloseIfSettled(derived, worker, now, closedAt).job.tasks == derived.tasks;
  }
}
