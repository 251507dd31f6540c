/**
 * What each operation on a task means, said in its statuses, owners and moments alone: none of these
 * laws speaks through the function it is about or through what that calls.
 */
module TaskLaws {
  import opened Base
  import opened Tasks

  // ----- Vocabulary -----

  /** Past the absolute lifetime, counted from the first start. */
  predicate HasOutlived(t: Task, now: Moment) {
    t.lifetimeDeadlineAt.Some? && t.lifetimeDeadlineAt.value < now
  }

  /** Refused for good: by its executor, by its budget, or by its lifetime. */
  predicate FailedForGood(t: Task, now: Moment) {
    t.status.Failed? && (t.retry == TaskRetry.Never || t.maxAttempts <= t.attempt || HasOutlived(t, now))
  }

  /** Refused less than a second ago, and to be retried. */
  predicate Rests(t: Task, now: Moment) {
    && t.status.Failed? && !FailedForGood(t, now) && t.completedAt.Some?
    && t.completedAt.value + SECOND <= MAX_MOMENT && now < t.completedAt.value + SECOND
  }

  /** Anyone may start it: it waits, its retry is due, or its worker is past the deadline. */
  predicate IsFree(t: Task, now: Moment) {
    || t.status.Todo?
    || (t.status.Failed? && !FailedForGood(t, now) && !Rests(t, now))
    || (t.status.Started? && !HasOutlived(t, now) && t.deadlineAt.Some? && t.deadlineAt.value < now)
  }

  // ----- Laws -----

  lemma AvailabilityLaw(t: Task, now: Moment)
    ensures CheckAvailability(t, now) == Pickable <==> IsFree(t, now)
    ensures CheckAvailability(t, now) == ExpiredPastLifetime <==> t.status.Started? && HasOutlived(t, now)
    ensures CheckAvailability(t, now).AwaitingRetry? <==> Rests(t, now)
    ensures Rests(t, now) ==> CheckAvailability(t, now) == AwaitingRetry(t.completedAt.value + SECOND)
  {
  }

  /** A start succeeds exactly on a free task whose deadlines a date can name. */
  lemma StartLaw(t: Task, worker: Id, now: Moment)
    ensures Start(t, worker, now).Ok? <==>
            && IsFree(t, now) && now + t.timeout <= MAX_MOMENT
            && (t.lifetimeDeadlineAt.Some? || now + t.maxLifetime <= MAX_MOMENT)
    ensures Start(t, worker, now) == Err(TaskWorkerMismatch) <==>
            !IsFree(t, now) && !Rests(t, now) && t.owner != Some(worker)
    ensures Start(t, worker, now).Ok? ==>
              var s := Start(t, worker, now).value;
              && s.status == Started && s.owner == Some(worker) && s.startedAt == Some(now)
              && s.attempt == t.attempt + (if t.status.Started? then 0 else 1)
              && s.lifetimeDeadlineAt == (if t.lifetimeDeadlineAt.Some? then t.lifetimeDeadlineAt else Some(now + t.maxLifetime))
              && s.deadlineAt.Some? && s.deadlineAt.value <= now + t.timeout
              && s.deadlineAt.value <= s.lifetimeDeadlineAt.value
              && (s.deadlineAt.value == now + t.timeout || s.deadlineAt == s.lifetimeDeadlineAt)
              && t == s.(status := t.status, owner := t.owner, startedAt := t.startedAt, attempt := t.attempt,
                         lifetimeDeadlineAt := t.lifetimeDeadlineAt, deadlineAt := t.deadlineAt)
  {
  }

  /** A result is taken from a running task within its lifetime, and kept as it was given. */
  lemma CompleteLaw(t: Task, output: string, now: Moment)
    ensures Complete(t, output, now).Ok? <==> t.status.Started? && !HasOutlived(t, now)
    ensures Complete(t, output, now).Ok? ==>
              var s := Complete(t, output, now).value;
              && s.status == Completed && s.output == output && s.completedAt == Some(now)
              && t == s.(status := t.status, output := t.output, completedAt := t.completedAt)
  {
  }

  lemma SkipLaw(t: Task, reason: Reason, cause: SkipCause, now: Moment)
    ensures Skip(t, reason, cause, now).Ok? <==> t.status.Blocked? || (t.status.Started? && !HasOutlived(t, now))
    ensures Skip(t, reason, cause, now).Ok? ==>
              var s := Skip(t, reason, cause, now).value;
              && s.status == Skipped(cause) && s.reason == reason && s.completedAt == Some(now)
              && t == s.(status := t.status, reason := t.reason, completedAt := t.completedAt)
  {
  }

  /** A refusal keeps its reason and whether it may be repeated; it is taken past the lifetime as well. */
  lemma FailLaw(t: Task, reason: Reason, retry: TaskRetry, now: Moment)
    ensures Fail(t, reason, retry, now).Ok? <==> t.status.Started?
    ensures Fail(t, reason, retry, now).Ok? ==>
              var s := Fail(t, reason, retry, now).value;
              && s.status == Failed && s.reason == reason && s.retry == retry && s.completedAt == Some(now)
              && t == s.(status := t.status, reason := t.reason, retry := t.retry, completedAt := t.completedAt)
  {
  }

  lemma UnblockLaw(t: Task)
    ensures Tasks.Unblock(t).status == if t.status == Blocked then Todo else t.status
    ensures t == Tasks.Unblock(t).(status := t.status)
  {
  }

  lemma OwnerLaw(t: Task, worker: Id)
    ensures CheckOwner(t, worker) == Err(TaskWorkerMismatch) <==> exists other :: other != worker && t.owner == Some(other)
    ensures CheckOwner(t, worker).Ok? <==> t.owner == None || t.owner == Some(worker)
  {
    if t.owner.Some? {
      assert t.owner == Some(t.owner.value);
    }
  }

  /** What `t` cannot accept, and would have to be skipped for as a failure. */
  predicate FailsIt(t: Task, dependency: Task, now: Moment) {
    || (FailedForGood(dependency, now) && !t.tolerance.allowsFailed)
    || (dependency.status == Skipped(FailedDependency) && !t.tolerance.allowsSkipped)
  }

  /** What `t` cannot accept for a decision, its executor's or one handed down. */
  predicate PassesItBy(t: Task, dependency: Task) {
    && (dependency.status == Skipped(ExecutorDecision) || dependency.status == Skipped(SkippedDependency))
    && !t.tolerance.allowsSkipped
  }

  predicate SatisfiesIt(t: Task, dependency: Task, now: Moment) {
    || dependency.status == Completed
    || (FailedForGood(dependency, now) && t.tolerance.allowsFailed)
    || (dependency.status.Skipped? && t.tolerance.allowsSkipped)
  }

  lemma JudgementLaw(t: Task, dependency: Task, now: Moment)
    ensures JudgeDependency(t, dependency, now) == Unblocked <==> SatisfiesIt(t, dependency, now)
    ensures JudgeDependency(t, dependency, now) == Unreachable(FailedDependency) <==> FailsIt(t, dependency, now)
    ensures JudgeDependency(t, dependency, now) == Unreachable(SkippedDependency) <==> PassesItBy(t, dependency)
    ensures JudgeDependency(t, dependency, now).Unreachable? ==> FailsIt(t, dependency, now) || PassesItBy(t, dependency)
  {
  }

  lemma SettledLaw(t: Task, now: Moment)
    ensures IsTerminallyFailed(t, now) <==> FailedForGood(t, now)
    ensures IsResolved(t) <==> t.status == Completed || t.status == Failed || t.status.Skipped?
  {
  }

  /** A new task waits for its dependencies if it has any, within the limits it was described with. */
  lemma NewTaskLaw(worker: Id, creator: Option<Id>, def: TaskDefinition, dependsOn: seq<Id>)
    ensures var t := NewTask(worker, creator, def, dependsOn);
            && t.dependsOn == dependsOn
            && (t.status == Blocked <==> dependsOn != []) && (t.status == Todo <==> dependsOn == [])
            && t.createdByWorker == worker && t.createdByTask == creator
            && t.timeout == def.timeout && t.maxLifetime == def.maxLifetime && t.maxAttempts == def.maxAttempts
            && t.tolerance == def.tolerance && t.attempt == 0 && t.retry == WhileBudgetLasts
            && t.output == "" && t.reason == NoReason && t.owner == None
            && t.startedAt == t.completedAt == t.deadlineAt == t.lifetimeDeadlineAt == None
  {
  }
}
