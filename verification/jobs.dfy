/**
 * One iteration of a job as a value, and what every domain operation makes of it. The `Job` class
 * does the same in place.
 */
module Jobs {
  import opened Base
  import opened Tasks
  import opened Cascades
  import opened Settling

  datatype JobStatus = JobStarted | JobRunning | JobCompleted | JobFailed

  /** Settings re-read from the description and not part of what is stored. */
  datatype Settings = Settings(
    maxIterations: Option<nat>,
    iterationInterval: Option<Span>,
    maxInputSize: nat,
    maxOutputSize: nat)

  datatype JobDefinition = JobDefinition(id: Id, initialTasks: seq<TaskDefinition>, settings: Settings)

  datatype JobState = JobState(
    id: Id,
    iterNum: nat,
    status: JobStatus,
    tasks: TaskMap,
    updatedBy: Id,
    startedAt: Moment,
    runningAt: Option<Moment>,
    completedAt: Option<Moment>,
    nextStartAt: Option<Moment>,
    version: Option<nat>,
    settings: Settings)

  datatype NextIteration = Ready | DueAt(due: Moment) | BudgetSpent | Unscheduled

  datatype IterationStatus = InProgress | Closed(next: NextIteration)

  /** A job after a call that may change it and still end in an error. */
  datatype Outcome<+T> = Outcome(job: JobState, result: Result<T>)

  // ----- Status -----

  predicate CanTransition(from: JobStatus, to: JobStatus) {
    match from
    case JobStarted => to.JobRunning? || to.JobFailed?
    case JobRunning => to.JobRunning? || to.JobCompleted? || to.JobFailed?
    case JobCompleted => to.JobStarted?
    case JobFailed => to.JobStarted?
  }

  function StatusOfVerdict(v: Verdict): JobStatus {
    if v.IterationFailed? then JobFailed else JobCompleted
  }

  predicate IsProcessed(job: JobState) {
    job.status.JobCompleted? || job.status.JobFailed?
  }

  predicate IsIterationLimitReached(job: JobState) {
    job.settings.maxIterations.Some? && job.iterNum >= job.settings.maxIterations.value
  }

  function NextIterationStartAt(job: JobState): Option<Moment> {
    if !IsProcessed(job) || IsIterationLimitReached(job) then None
    else if job.nextStartAt.Some? then job.nextStartAt
    else if job.settings.iterationInterval.None? then Some(job.startedAt)
    else if job.settings.iterationInterval.value > MAX_SPAN then None
    else CheckedAdd(job.startedAt, job.settings.iterationInterval.value)
  }

  function FindIterationStatus(job: JobState, now: Moment): IterationStatus {
    if !IsProcessed(job) then InProgress
    else if IsIterationLimitReached(job) then Closed(BudgetSpent)
    else
      var due := NextIterationStartAt(job);
      Closed(if due.None? then Unscheduled else if now >= due.value then Ready else DueAt(due.value))
  }

  function StartWork(job: JobState, worker: Id, now: Moment): Result<JobState> {
    if CanTransition(job.status, JobRunning)
    then Ok(job.(status := JobRunning, updatedBy := worker, runningAt := Some(now)))
    else Err(InvalidStatusTransition)
  }

  // ----- Planning an iteration -----

  predicate Distinct(ids: seq<Id>) {
    forall i, j :: 0 <= i < j < |ids| ==> ids[i] != ids[j]
  }

  function ResolveInitial(refs: seq<TaskRef>, ids: seq<Id>): Result<seq<Id>> {
    if refs == [] then Ok([])
    else
      match refs[0]
      case Created(_) => Err(Other)
      case Initial(_, position) =>
        if position >= |ids| then Err(Other)
        else
          match ResolveInitial(refs[1..], ids)
          case Err(e) => Err(e)
          case Ok(rest) => Ok([ids[position]] + rest)
  }

  /** The tasks of the first `n` positions. */
  function PlanTasks(defs: seq<TaskDefinition>, ids: seq<Id>, worker: Id, n: nat): Result<TaskMap>
    requires n <= |defs| == |ids|
  {
    if n == 0 then Ok(map[])
    else
      match PlanTasks(defs, ids, worker, n - 1)
      case Err(e) => Err(e)
      case Ok(tasks) =>
        match ResolveInitial(defs[n - 1].dependsOn, ids)
        case Err(e) => Err(e)
        case Ok(resolved) => Ok(tasks[ids[n - 1] := NewTask(worker, None, defs[n - 1], resolved)])
  }

  /** The first iteration, planned under identifiers minted for it. */
  function NewJob(def: JobDefinition, jobId: Id, ids: seq<Id>, worker: Id, now: Moment): Result<JobState>
    requires |ids| == |def.initialTasks|
  {
    match PlanTasks(def.initialTasks, ids, worker, |ids|)
    case Err(e) => Err(e)
    case Ok(tasks) =>
      Ok(JobState(jobId, 1, JobStarted, tasks, worker, now, None, None, None, None, def.settings))
  }

  function NextIterationOf(job: JobState, def: JobDefinition, ids: seq<Id>, worker: Id, now: Moment): Result<JobState>
    requires |ids| == |def.initialTasks|
  {
    if FindIterationStatus(job, now) != Closed(Ready) then Err(Other)
    else if !CanTransition(job.status, JobStarted) then Err(InvalidStatusTransition)
    else
      match NewJob(def, job.id, ids, worker, now)
      case Err(e) => Err(e)
      case Ok(planned) => Ok(planned.(iterNum := job.iterNum + 1))
  }

  // ----- What an execution may do -----

  function ResolveCreated(refs: seq<TaskRef>, tasks: TaskMap): Result<seq<Id>> {
    if refs == [] then Ok([])
    else
      match refs[0]
      case Initial(_, _) => Err(Other)
      case Created(d) =>
        if d !in tasks then Err(Other)
        else
          match ResolveCreated(refs[1..], tasks)
          case Err(e) => Err(e)
          case Ok(rest) => Ok([d] + rest)
  }

  /** Registers a task under the identifier minted for it. */
  function AddTask(job: JobState, def: TaskDefinition, worker: Id, creator: Option<Id>, minted: Id): Result<JobState> {
    if Validate(def, job.settings.maxInputSize).Err? || !DeclaresToleranceValid(def) then Err(Other)
    else if creator.Some? && creator.value !in job.tasks then Err(TaskNotFound)
    else if creator.Some? && job.tasks[creator.value].status.Failed? then Err(Other)
    else
      match ResolveCreated(def.dependsOn, job.tasks)
      case Err(e) => Err(e)
      case Ok(resolved) => Ok(job.(tasks := job.tasks[minted := NewTask(worker, creator, def, resolved)]))
  }

  function StartTask(job: JobState, id: Id, worker: Id, now: Moment): Result<JobState> {
    if id !in job.tasks then Err(TaskNotFound)
    else
      match Start(job.tasks[id], worker, now)
      case Err(e) => Err(e)
      case Ok(t) => Ok(job.(tasks := job.tasks[id := t], updatedBy := worker))
  }

  function CompleteTask(job: JobState, id: Id, output: string, worker: Id, now: Moment): Result<JobState> {
    if |output| > job.settings.maxOutputSize then Err(Other)
    else if id !in job.tasks then Err(TaskNotFound)
    else if CheckOwner(job.tasks[id], worker).Err? then Err(TaskWorkerMismatch)
    else
      match Complete(job.tasks[id], output, now)
      case Err(e) => Err(e)
      case Ok(t) => Ok(job.(tasks := job.tasks[id := t]))
  }

  /** Fails a task and drops what its execution created. */
  function FailTask(job: JobState, id: Id, reason: Reason, retry: TaskRetry, worker: Id, now: Moment): Result<JobState> {
    if id !in job.tasks then Err(TaskNotFound)
    else if CheckOwner(job.tasks[id], worker).Err? then Err(TaskWorkerMismatch)
    else
      match Fail(job.tasks[id], reason, retry, now)
      case Err(e) => Err(e)
      case Ok(t) =>
        var failed := job.tasks[id := t];
        Ok(job.(tasks := map x | x in failed && failed[x].createdByTask != Some(id) :: failed[x]))
  }

  function SkipTaskByExecutor(job: JobState, id: Id, reason: Reason, worker: Id, now: Moment): Result<JobState> {
    if id !in job.tasks then Err(TaskNotFound)
    else if CheckOwner(job.tasks[id], worker).Err? then Err(TaskWorkerMismatch)
    else
      match Skip(job.tasks[id], reason, ExecutorDecision, now)
      case Err(e) => Err(e)
      case Ok(t) => Ok(job.(tasks := job.tasks[id := t]))
  }

  function RecordExecutionFailure(job: JobState, id: Id, reason: Reason, retry: TaskRetry, worker: Id, now: Moment)
    : Result<JobState>
  {
    if id !in job.tasks then Err(TaskNotFound)
    else if IsResolved(job.tasks[id]) then Ok(job)
    else FailTask(job, id, reason, retry, worker, now)
  }

  // ----- Looking for work and settling -----

  function FailedByLifetime(t: Task, now: Moment): Task {
    if CheckAvailability(t, now).ExpiredPastLifetime?
    then t.(reason := Message("lifetime"), retry := WhileBudgetLasts, status := Failed, completedAt := Some(now))
    else t
  }

  function FailByLifetime(tasks: TaskMap, now: Moment): TaskMap {
    map id | id in tasks :: FailedByLifetime(tasks[id], now)
  }

  /** Closes an iteration nothing in which can move, under the verdict its tasks carry. */
  function CloseIfSettled(job: JobState, worker: Id, now: Moment, closedAt: Moment): Outcome<bool> {
    if AnyKeepsOpen(job.tasks, now) then Outcome(job, Ok(false))
    else if !AllResolved(job.tasks) then Outcome(job, Err(IterationDeadlock))
    else
      var status := StatusOfVerdict(VerdictOf(job.tasks, now));
      if !CanTransition(job.status, status) then Outcome(job, Err(InvalidStatusTransition))
      else Outcome(job.(status := status, updatedBy := worker, completedAt := Some(closedAt)), Ok(true))
  }

  /** `now` is the one reading the verdict is judged by; `closedAt` the later one it is stamped with. */
  function TrySettle(job: JobState, worker: Id, now: Moment, closedAt: Moment): Outcome<bool> {
    CloseIfSettled(job.(tasks := Derived(job.tasks, now)), worker, now, closedAt)
  }

  // ----- Merging after a lost race -----

  /** Carries the task `worker` started in `ours` onto the stored state. */
  function MergePicked(stored: JobState, ours: JobState, worker: Id, id: Id, now: Moment, later: Moment): Result<JobState> {
    if stored.id != ours.id then Err(Other)
    else if id !in stored.tasks then Err(TaskNotFound)
    else if CheckOwner(stored.tasks[id], worker).Err? then Err(TaskWorkerMismatch)
    else if id !in ours.tasks then Err(TaskNotFound)
    else if !ours.tasks[id].status.Started? then Err(Other)
    else if !CanTransition(stored.status, ours.status) then Err(Other)
    else
      var cascaded := Cascade(FailByLifetime(stored.tasks, now), later);
      Ok(stored.(status := ours.status,
                 tasks := cascaded[id := ours.tasks[id]],
                 updatedBy := worker,
                 runningAt := if stored.runningAt.None? then ours.runningAt else stored.runningAt))
  }

  predicate IsCreatedNow(stored: TaskMap, id: Id, t: Task, worker: Id) {
    t.createdByWorker == worker && t.owner.None? && id !in stored
  }

  predicate IsProcessedNow(t: Task, worker: Id) {
    t.owner == Some(worker)
  }

  /** The stored tasks with what `worker` changed in its copy carried over. */
  function MergeTasks(stored: TaskMap, ours: TaskMap, worker: Id): TaskMap {
    stored + map id | id in ours
                      && (IsCreatedNow(stored, id, ours[id], worker) || IsProcessedNow(ours[id], worker)) :: ours[id]
  }

  /** The stored state with a finished result carried over, before it is settled. */
  function CarriedOver(stored: JobState, ours: JobState, worker: Id, now: Moment): JobState {
    stored.(
      tasks := MergeTasks(stored.tasks, ours.tasks, worker),
      updatedBy := worker,
      status := JobRunning,
      runningAt := if ours.runningAt.Some? then ours.runningAt
                   else if stored.status.JobRunning? then stored.runningAt else Some(now),
      nextStartAt := if ours.nextStartAt.Some? then ours.nextStartAt else stored.nextStartAt)
  }

  /** Carries a finished result onto the stored state and settles the outcome. */
  function MergeProcessed(stored: JobState, ours: JobState, worker: Id, id: Id, now: Moment, closedAt: Moment): Outcome<()> {
    if stored.id != ours.id then Outcome(stored, Err(Other))
    else if id !in stored.tasks then Outcome(stored, Err(TaskNotFound))
    else if CheckOwner(stored.tasks[id], worker).Err? then Outcome(stored, Err(TaskWorkerMismatch))
    else if IsProcessed(stored) then Outcome(stored, Err(IterationAlreadySettled))
    else
      var settled := TrySettle(CarriedOver(stored, ours, worker, now), worker, now, closedAt);
      Outcome(settled.job, if settled.result.Ok? then Ok(()) else Err(settled.result.error))
  }
}
