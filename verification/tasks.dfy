/** The task state machine: what a task is, when it may be started, and how it is resolved. */
module Tasks {
  import opened Base

  datatype SkipCause = ExecutorDecision | FailedDependency | SkippedDependency

  datatype TaskStatus = Todo | Blocked | Started | Completed | Failed | Skipped(cause: SkipCause)

  datatype TaskRetry = WhileBudgetLasts | Never

  datatype Tolerance = Tolerance(allowsFailed: bool, allowsSkipped: bool)

  /** Why a task did not complete. Texts are opaque; the cascade names the dependency it blames. */
  datatype Reason = NoReason | Message(text: string) | UnreachableDependency(dependency: Id)

  /** How a definition names a task it waits for. */
  datatype TaskRef = Initial(definition: Id, position: nat) | Created(task: Id)

  datatype TaskDefinition = TaskDefinition(
    timeout: Span,
    maxLifetime: Span,
    maxAttempts: nat,
    inputSize: nat,
    tolerance: Tolerance,
    dependsOn: seq<TaskRef>)

  datatype Task = Task(
    status: TaskStatus,
    owner: Option<Id>,
    createdByWorker: Id,
    createdByTask: Option<Id>,
    timeout: Span,
    maxLifetime: Span,
    startedAt: Option<Moment>,
    completedAt: Option<Moment>,
    deadlineAt: Option<Moment>,
    lifetimeDeadlineAt: Option<Moment>,
    attempt: nat,
    maxAttempts: nat,
    output: string,
    reason: Reason,
    retry: TaskRetry,
    tolerance: Tolerance,
    dependsOn: seq<Id>)

  datatype Availability =
    | Pickable
    | AwaitingRetry(retryAt: Moment)
    | ExpiredPastLifetime
    | Unavailable

  datatype DependencyVerdict = Unblocked | Waiting | Unreachable(cause: SkipCause)

  const DEFAULT_LIFETIME_MULTIPLIER: nat := 5
  const FAILED_TASK_RETRY_PAUSE: Span := SECOND

  predicate CarriesFailure(cause: SkipCause) {
    cause == FailedDependency
  }

  // ----- Definitions -----

  /** Whether a definition may enter a job that caps inputs at `maxInputSize`. */
  function Validate(def: TaskDefinition, maxInputSize: nat): (r: Result<()>)
    ensures r.Ok? <==>
            && 0 < def.timeout <= def.maxLifetime <= MAX_SPAN
            && 0 < def.maxAttempts && def.inputSize <= maxInputSize
  {
    if def.timeout == 0 || def.timeout > MAX_SPAN then Err(Other)
    else if def.maxLifetime == 0 || def.maxLifetime > MAX_SPAN then Err(Other)
    else if def.maxLifetime < def.timeout then Err(Other)
    else if def.maxAttempts == 0 then Err(Other)
    else if def.inputSize > maxInputSize then Err(Other)
    else Ok(())
  }

  predicate DeclaresToleranceValid(def: TaskDefinition): (r: bool)
    ensures r <==> def.dependsOn != [] || def.tolerance == Tolerance(false, false)
  {
    !((def.tolerance.allowsFailed || def.tolerance.allowsSkipped) && def.dependsOn == [])
  }

  function NewTask(worker: Id, creator: Option<Id>, def: TaskDefinition, dependsOn: seq<Id>): Task {
    Task(if dependsOn == [] then Todo else Blocked, None, worker, creator,
         def.timeout, def.maxLifetime, None, None, None, None,
         0, def.maxAttempts, "", NoReason, WhileBudgetLasts, def.tolerance, dependsOn)
  }

  // ----- State checks -----

  predicate IsExpired(t: Task, now: Moment) {
    t.deadlineAt.Some? && now > t.deadlineAt.value
  }

  predicate IsLifetimeExpired(t: Task, now: Moment) {
    t.lifetimeDeadlineAt.Some? && now > t.lifetimeDeadlineAt.value
  }

  predicate IsResolved(t: Task) {
    t.status.Completed? || t.status.Failed? || t.status.Skipped?
  }

  predicate IsTerminallyFailed(t: Task, now: Moment) {
    t.status.Failed? && (t.retry.Never? || t.attempt >= t.maxAttempts || IsLifetimeExpired(t, now))
  }

  function CheckAvailability(t: Task, now: Moment): Availability {
    match t.status
    case Todo => Pickable
    case Blocked => Unavailable
    case Completed => Unavailable
    case Skipped(_) => Unavailable
    case Failed =>
      if IsTerminallyFailed(t, now) then Unavailable
      else if t.completedAt.None? then Pickable
      else
        var retryAt := CheckedAdd(t.completedAt.value, FAILED_TASK_RETRY_PAUSE);
        if retryAt.Some? && now < retryAt.value then AwaitingRetry(retryAt.value) else Pickable
    case Started =>
      if IsLifetimeExpired(t, now) then ExpiredPastLifetime
      else if IsExpired(t, now) then Pickable
      else Unavailable
  }

  /** What `t` makes of a dependency: accepts it, cannot, or does not know yet. */
  function JudgeDependency(t: Task, dependency: Task, now: Moment): DependencyVerdict {
    if dependency.status.Completed? then Unblocked
    else if IsTerminallyFailed(dependency, now) then
      if t.tolerance.allowsFailed then Unblocked else Unreachable(FailedDependency)
    else if dependency.status.Skipped? then
      if t.tolerance.allowsSkipped then Unblocked
      else if CarriesFailure(dependency.status.cause) then Unreachable(FailedDependency)
      else Unreachable(SkippedDependency)
    else Waiting
  }

  // ----- Transitions: what each call makes of the task it was given -----

  function Unblock(t: Task): Task {
    if t.status.Blocked? then t.(status := Todo) else t
  }

  function Start(t: Task, worker: Id, now: Moment): Result<Task> {
    var availability := CheckAvailability(t, now);
    if availability.AwaitingRetry? then Err(Other)
    else if !availability.Pickable? then
      if t.owner != Some(worker) then Err(TaskWorkerMismatch) else Err(Other)
    else
      var lifetimeDeadline := if t.lifetimeDeadlineAt.Some? then t.lifetimeDeadlineAt
                              else CheckedAdd(now, t.maxLifetime);
      var timeoutDeadline := CheckedAdd(now, t.timeout);
      if lifetimeDeadline.None? || timeoutDeadline.None? then Err(Other)
      else Ok(t.(status := Started,
                 owner := Some(worker),
                 startedAt := Some(now),
                 deadlineAt := Some(Min(timeoutDeadline.value, lifetimeDeadline.value)),
                 lifetimeDeadlineAt := lifetimeDeadline,
                 attempt := if t.status.Started? then t.attempt else t.attempt + 1))
  }

  function Complete(t: Task, output: string, now: Moment): Result<Task> {
    if !t.status.Started? || IsLifetimeExpired(t, now) then Err(Other)
    else Ok(t.(output := output, status := Completed, completedAt := Some(now)))
  }

  function Skip(t: Task, reason: Reason, cause: SkipCause, now: Moment): Result<Task> {
    if !t.status.Started? && !t.status.Blocked? then Err(Other)
    else if t.status.Started? && IsLifetimeExpired(t, now) then Err(Other)
    else Ok(t.(reason := reason, status := Skipped(cause), completedAt := Some(now)))
  }

  function Fail(t: Task, reason: Reason, retry: TaskRetry, now: Moment): Result<Task> {
    if !t.status.Started? then Err(Other)
    else Ok(t.(reason := reason, retry := retry, status := Failed, completedAt := Some(now)))
  }

  /** A task may be touched by its owner, and by anyone while it has none. */
  function CheckOwner(t: Task, worker: Id): Result<()> {
    if t.owner.Some? && t.owner.value != worker then Err(TaskWorkerMismatch) else Ok(())
  }

  /** What storing a task and reading it back leaves: an execution's claim on it is not persisted. */
  function Restored(t: Task): Task {
    t.(createdByTask := None)
  }

  /**
   * The slot a job keeps a task in. The task inside is shared copy-on-write, so a change replaces
   * the slot's task and no copy of the job sees it.
   */
  class TaskCell {
    var task: Task

    constructor (t: Task)
      ensures task == t
    {
      task := t;
    }

    method StartBy(worker: Id, now: Moment) returns (r: Result<()>)
      modifies this
      ensures r.Ok? == Start(old(task), worker, now).Ok?
      ensures r.Ok? ==> task == Start(old(task), worker, now).value
      ensures r.Err? ==> r.error == Start(old(task), worker, now).error && task == old(task)
    {
      var availability := CheckAvailability(task, now);
      if availability.AwaitingRetry? {
        return Err(Other);
      }
      if !availability.Pickable? {
        if task.owner != Some(worker) {
          return Err(TaskWorkerMismatch);
        }
        return Err(Other);
      }
      var lifetimeDeadline := task.lifetimeDeadlineAt;
      if lifetimeDeadline.None? {
        lifetimeDeadline := CheckedAdd(now, task.maxLifetime);
      }
      var timeoutDeadline := CheckedAdd(now, task.timeout);
      if lifetimeDeadline.None? || timeoutDeadline.None? {
        return Err(Other);
      }
      var isTakeover := task.status.Started?;
      task := task.(status := Started, owner := Some(worker), startedAt := Some(now));
      task := task.(deadlineAt := Some(Min(timeoutDeadline.value, lifetimeDeadline.value)));
      task := task.(lifetimeDeadlineAt := lifetimeDeadline);
      if !isTakeover {
        task := task.(attempt := task.attempt + 1);
      }
      return Ok(());
    }

    method CompleteWith(output: string, now: Moment) returns (r: Result<()>)
      modifies this
      ensures r.Ok? == Complete(old(task), output, now).Ok?
      ensures r.Ok? ==> task == Complete(old(task), output, now).value
      ensures r.Err? ==> r.error == Complete(old(task), output, now).error && task == old(task)
    {
      if !task.status.Started? {
        return Err(Other);
      }
      if IsLifetimeExpired(task, now) {
        return Err(Other);
      }
      task := task.(output := output);
      task := task.(status := Completed, completedAt := Some(now));
      return Ok(());
    }

    method SkipFor(reason: Reason, cause: SkipCause, now: Moment) returns (r: Result<()>)
      modifies this
      ensures r.Ok? == Skip(old(task), reason, cause, now).Ok?
      ensures r.Ok? ==> task == Skip(old(task), reason, cause, now).value
      ensures r.Err? ==> r.error == Skip(old(task), reason, cause, now).error && task == old(task)
    {
      if !(task.status.Started? || task.status.Blocked?) {
        return Err(Other);
      }
      if task.status.Started? && IsLifetimeExpired(task, now) {
        return Err(Other);
      }
      task := task.(reason := reason);
      task := task.(status := Skipped(cause), completedAt := Some(now));
      return Ok(());
    }

    method FailWith(reason: Reason, retry: TaskRetry, now: Moment) returns (r: Result<()>)
      modifies this
      ensures r.Ok? == Fail(old(task), reason, retry, now).Ok?
      ensures r.Ok? ==> task == Fail(old(task), reason, retry, now).value
      ensures r.Err? ==> r.error == Fail(old(task), reason, retry, now).error && task == old(task)
    {
      if !task.status.Started? {
        return Err(Other);
      }
      task := task.(reason := reason, retry := retry);
      task := task.(status := Failed, completedAt := Some(now));
      return Ok(());
    }

    method Release()
      modifies this
      ensures task == Unblock(old(task))
    {
      if task.status.Blocked? {
        task := task.(status := Todo);
      }
    }
  }
}
