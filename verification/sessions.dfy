/**
 * One execution: the calls its executor makes through the job handle, the closing of that handle,
 * and what the worker records afterwards. A failed execution takes its whole plan back.
 */
module Sessions {
  import opened Base
  import opened Tasks
  import opened Settling
  import opened Jobs
  import opened JobLaws
  import opened JobObject
  import Planning

  datatype Call =
    | AddCall(def: TaskDefinition, minted: Id)
    | CompleteCall(id: Id, output: string, now: Moment)
    | FailCall(id: Id, reason: Reason, retry: TaskRetry, now: Moment)
    | SkipBranchCall(reason: Reason, now: Moment)
    | SetNextStartCall(at: Moment)
    | CloseCall

  datatype ExecutorOutcome =
    | Returned(output: string)
    | TerminallyFailed(reason: Reason)
    | SkippedBranch(reason: Reason)
    | Deferred
    | Refused(reason: Reason)

  /** The job a handle guards, whether the handle is open, and what it has registered so far. */
  datatype Session = Session(job: JobState, isOpen: bool, registered: set<Id>)

  /** What the call makes of the job, if the domain accepts it. */
  function Perform(job: JobState, call: Call, worker: Id, task: Id): Result<JobState> {
    match call
    case AddCall(def, minted) => AddTask(job, def, worker, Some(task), minted)
    case CompleteCall(id, output, now) => CompleteTask(job, id, output, worker, now)
    case FailCall(id, reason, retry, now) => FailTask(job, id, reason, retry, worker, now)
    case SkipBranchCall(reason, now) => SkipTaskByExecutor(job, task, reason, worker, now)
    case SetNextStartCall(at) => Ok(job.(nextStartAt := Some(at)))
    case CloseCall => Ok(job)
  }

  /** One call on the handle; a refused one changes nothing. */
  function Handle(s: Session, call: Call, worker: Id, task: Id): Session {
    if call.CloseCall? then s.(isOpen := false)
    else if !s.isOpen then s
    else
      match Perform(s.job, call, worker, task)
      case Err(_) => s
      case Ok(job) => s.(job := job, registered := s.registered + if call.AddCall? then {call.minted} else {})
  }

  function RunSession(s: Session, calls: seq<Call>, worker: Id, task: Id): Session {
    if calls == [] then s
    else Handle(RunSession(s, calls[..|calls| - 1], worker, task), calls[|calls| - 1], worker, task)
  }

  /** What the executor returned, if the domain accepts it as the task's resolution. */
  function AcceptOutcome(job: JobState, task: Id, worker: Id, outcome: ExecutorOutcome, now: Moment): Result<JobState> {
    match outcome
    case Returned(output) => CompleteTask(job, task, output, worker, now)
    case TerminallyFailed(reason) => FailTask(job, task, reason, TaskRetry.Never, worker, now)
    case SkippedBranch(reason) => SkipTaskByExecutor(job, task, reason, worker, now)
    case Deferred => if task in job.tasks && IsResolved(job.tasks[task]) then Ok(job) else Err(Other)
    case Refused(_) => Err(Other)
  }

  function FailureReason(outcome: ExecutorOutcome): Reason {
    if outcome.Refused? then outcome.reason else Message("execution failed")
  }

  /** What the worker records once the executor returned: the resolution, or a failed execution. */
  function ApplyOutcome(job: JobState, task: Id, worker: Id, outcome: ExecutorOutcome, now: Moment, later: Moment)
    : Result<JobState>
  {
    var accepted := AcceptOutcome(job, task, worker, outcome, now);
    if accepted.Ok? then accepted
    else RecordExecutionFailure(job, task, FailureReason(outcome), WhileBudgetLasts, worker, later)
  }

  ghost function Minted(calls: seq<Call>): set<Id> {
    if calls == [] then {}
    else
      var last := calls[|calls| - 1];
      Minted(calls[..|calls| - 1]) + if last.AddCall? then {last.minted} else {}
  }

  /** Identifiers minted in a session are new to the iteration, and to the session. */
  ghost predicate MintsFresh(start: JobState, calls: seq<Call>) {
    calls != [] ==>
      var before, last := calls[..|calls| - 1], calls[|calls| - 1];
      && MintsFresh(start, before)
      && (last.AddCall? ==> last.minted !in start.tasks && last.minted !in Minted(before))
  }

  /** The job as a started task's execution receives it: restored, closed, with its own task running. */
  ghost predicate OpensFor(start: JobState, worker: Id, task: Id) {
    && task in start.tasks && start.tasks[task].status.Started? && start.tasks[task].owner == Some(worker)
    && (forall x :: x in start.tasks ==> start.tasks[x].createdByTask.None?)
    && DependencyClosed(start.tasks)
  }

  /** What holds throughout: the plan of this execution is there whole, or gone with its failure. */
  ghost predicate PlanIsWhole(start: JobState, job: JobState, registered: set<Id>, task: Id) {
    && task in start.tasks && task in job.tasks
    && registered !! start.tasks.Keys
    && job.tasks.Keys == start.tasks.Keys + (if job.tasks[task].status.Failed? then {} else registered)
    && (forall x :: x in job.tasks ==>
          job.tasks[x].createdByTask == if x in start.tasks then None else Some(task))
    && (forall x :: x in start.tasks ==> job.tasks[x].dependsOn == start.tasks[x].dependsOn)
    && DependencyClosed(start.tasks)
    && DependencyClosed(job.tasks)
  }

  /** Replacing one task by a version with the same origin and dependencies. */
  lemma ReplacingKeepsPlan(start: JobState, job: JobState, registered: set<Id>, task: Id, x: Id, t: Task)
    requires PlanIsWhole(start, job, registered, task) && x in job.tasks
    requires t.createdByTask == job.tasks[x].createdByTask && t.dependsOn == job.tasks[x].dependsOn
    requires x == task ==> (t.status.Failed? <==> job.tasks[x].status.Failed?)
    ensures PlanIsWhole(start, job.(tasks := job.tasks[x := t]), registered, task)
  {
    assert job.tasks[x := t].Keys == job.tasks.Keys;
  }

  lemma FailingKeepsPlan(start: JobState, job: JobState, registered: set<Id>, task: Id,
                         x: Id, reason: Reason, retry: TaskRetry, worker: Id, now: Moment)
    requires PlanIsWhole(start, job, registered, task)
    requires FailTask(job, x, reason, retry, worker, now).Ok?
    ensures PlanIsWhole(start, FailTask(job, x, reason, retry, worker, now).value, registered, task)
  {
    var after := FailTask(job, x, reason, retry, worker, now).value;
    if x == task {
      assert after.tasks.Keys == start.tasks.Keys;
    } else {
      assert after.tasks.Keys == job.tasks.Keys;
    }
  }

  lemma AddingKeepsPlan(start: JobState, job: JobState, registered: set<Id>, task: Id,
                        def: TaskDefinition, worker: Id, minted: Id)
    requires PlanIsWhole(start, job, registered, task)
    requires minted !in start.tasks && minted !in registered
    requires Jobs.AddTask(job, def, worker, Some(task), minted).Ok?
    ensures PlanIsWhole(start, Jobs.AddTask(job, def, worker, Some(task), minted).value, registered + {minted}, task)
  {
    Planning.ResolvedCreated(def.dependsOn, job.tasks);
    assert Jobs.AddTask(job, def, worker, Some(task), minted).value.tasks.Keys == job.tasks.Keys + {minted};
  }

  lemma PerformKeepsPlan(start: JobState, s: Session, call: Call, worker: Id, task: Id)
    requires PlanIsWhole(start, s.job, s.registered, task)
    requires call.AddCall? ==> call.minted !in start.tasks && call.minted !in s.registered
    ensures PlanIsWhole(start, Handle(s, call, worker, task).job, Handle(s, call, worker, task).registered, task)
  {
    if s.isOpen && Perform(s.job, call, worker, task).Ok? {
      var job := Perform(s.job, call, worker, task).value;
      match call
      case AddCall(def, minted) =>
        AddingKeepsPlan(start, s.job, s.registered, task, def, worker, minted);
      case CompleteCall(id, output, now) =>
        ReplacingKeepsPlan(start, s.job, s.registered, task, id, job.tasks[id]);
      case FailCall(id, reason, retry, now) =>
        FailingKeepsPlan(start, s.job, s.registered, task, id, reason, retry, worker, now);
      case SkipBranchCall(reason, now) =>
        ReplacingKeepsPlan(start, s.job, s.registered, task, task, job.tasks[task]);
      case SetNextStartCall(_) =>
      case CloseCall =>
    }
  }

  lemma {:induction false} SessionKeepsPlan(start: JobState, calls: seq<Call>, worker: Id, task: Id)
    requires OpensFor(start, worker, task) && MintsFresh(start, calls)
    ensures var s := RunSession(Session(start, true, {}), calls, worker, task);
            PlanIsWhole(start, s.job, s.registered, task) && s.registered <= Minted(calls)
  {
    if calls != [] {
      var before := calls[..|calls| - 1];
      SessionKeepsPlan(start, before, worker, task);
      PerformKeepsPlan(start, RunSession(Session(start, true, {}), before, worker, task), calls[|calls| - 1], worker, task);
    }
  }

  lemma ResolvingKeepsPlan(start: JobState, job: JobState, registered: set<Id>, task: Id, after: JobState, t: Task)
    requires PlanIsWhole(start, job, registered, task)
    requires after == job.(tasks := job.tasks[task := t]) && !t.status.Failed? && !job.tasks[task].status.Failed?
    requires t.createdByTask == job.tasks[task].createdByTask && t.dependsOn == job.tasks[task].dependsOn
    ensures PlanIsWhole(start, after, registered, task)
  {
    ReplacingKeepsPlan(start, job, registered, task, task, t);
  }

  lemma AcceptedOutcomeKeepsPlan(start: JobState, job: JobState, registered: set<Id>, task: Id,
                                 worker: Id, outcome: ExecutorOutcome, now: Moment)
    requires PlanIsWhole(start, job, registered, task)
    requires AcceptOutcome(job, task, worker, outcome, now).Ok?
    ensures var after := AcceptOutcome(job, task, worker, outcome, now).value;
            PlanIsWhole(start, after, registered, task) && IsResolved(after.tasks[task])
  {
    var after := AcceptOutcome(job, task, worker, outcome, now).value;
    match outcome
    case Returned(_) => ResolvingKeepsPlan(start, job, registered, task, after, after.tasks[task]);
    case SkippedBranch(_) => ResolvingKeepsPlan(start, job, registered, task, after, after.tasks[task]);
    case TerminallyFailed(reason) =>
      FailingKeepsPlan(start, job, registered, task, task, reason, TaskRetry.Never, worker, now);
    case Deferred =>
  }

  lemma OutcomeKeepsPlan(start: JobState, job: JobState, registered: set<Id>, task: Id,
                         worker: Id, outcome: ExecutorOutcome, now: Moment, later: Moment)
    requires PlanIsWhole(start, job, registered, task)
    requires ApplyOutcome(job, task, worker, outcome, now, later).Ok?
    ensures PlanIsWhole(start, ApplyOutcome(job, task, worker, outcome, now, later).value, registered, task)
    ensures IsResolved(ApplyOutcome(job, task, worker, outcome, now, later).value.tasks[task])
  {
    if AcceptOutcome(job, task, worker, outcome, now).Ok? {
      AcceptedOutcomeKeepsPlan(start, job, registered, task, worker, outcome, now);
    } else if !IsResolved(job.tasks[task]) {
      FailingKeepsPlan(start, job, registered, task, task, FailureReason(outcome), WhileBudgetLasts, worker, later);
    }
  }

  /** The execution's own task, held by its worker: still running, or resolved. */
  ghost predicate HoldsItsTask(job: JobState, worker: Id, task: Id) {
    && task in job.tasks && job.tasks[task].owner == Some(worker)
    && (job.tasks[task].status.Started? || IsResolved(job.tasks[task]))
    && job.tasks[task].createdByTask.None?
  }

  lemma {:induction false} SessionHoldsItsTask(start: JobState, calls: seq<Call>, worker: Id, task: Id)
    requires OpensFor(start, worker, task) && MintsFresh(start, calls)
    ensures HoldsItsTask(RunSession(Session(start, true, {}), calls, worker, task).job, worker, task)
  {
    if calls != [] {
      SessionHoldsItsTask(start, calls[..|calls| - 1], worker, task);
    }
  }

  /** Recording never fails: what the domain does not accept as a resolution it accepts as a failure. */
  lemma RecordingNeverFails(job: JobState, task: Id, worker: Id, outcome: ExecutorOutcome, now: Moment, later: Moment)
    requires HoldsItsTask(job, worker, task)
    ensures ApplyOutcome(job, task, worker, outcome, now, later).Ok?
  {
  }

  /**
   * Whatever an executor does through its handle and however its execution ends, the end is
   * recorded: if its own task ends failed, the task set is the one it started from; otherwise
   * everything it registered is there. No dependency is left dangling either way.
   */
  lemma {:induction false} ExecutionPlansAllOrNothing(start: JobState, calls: seq<Call>, worker: Id, task: Id,
                                   outcome: ExecutorOutcome, now: Moment, later: Moment)
    requires OpensFor(start, worker, task) && MintsFresh(start, calls)
    ensures var s := RunSession(Session(start, true, {}), calls, worker, task);
            var recorded := ApplyOutcome(s.job, task, worker, outcome, now, later);
            && recorded.Ok?
            && var final := recorded.value;
            && task in final.tasks && IsResolved(final.tasks[task])
            && (final.tasks[task].status.Failed? ==> final.tasks.Keys == start.tasks.Keys)
            && (!final.tasks[task].status.Failed? ==> final.tasks.Keys == start.tasks.Keys + s.registered)
            && DependencyClosed(final.tasks)
  {
    SessionKeepsPlan(start, calls, worker, task);
    SessionHoldsItsTask(start, calls, worker, task);
    var s := RunSession(Session(start, true, {}), calls, worker, task);
    RecordingNeverFails(s.job, task, worker, outcome, now, later);
    OutcomeKeepsPlan(start, s.job, s.registered, task, worker, outcome, now, later);
  }

  /** No call after the handle is closed reaches the job. */
  lemma {:induction false} ClosedHandleChangesNothing(s: Session, calls: seq<Call>, worker: Id, task: Id)
    requires !s.isOpen
    ensures RunSession(s, calls, worker, task) == s
  {
    if calls != [] {
      ClosedHandleChangesNothing(s, calls[..|calls| - 1], worker, task);
    }
  }

  /** The handle itself: a job and an open flag behind one lock. */
  class JobHandle {
    var job: Job
    var isOpen: bool
    ghost var registered: set<Id>
    const worker: Id
    const task: Id

    constructor (job: Job, worker: Id, task: Id)
      ensures this.job == job && this.worker == worker && this.task == task && isOpen && registered == {}
    {
      this.job, this.worker, this.task, isOpen, registered := job, worker, task, true, {};
    }

    ghost function View(): Session
      reads this, job
    {
      Session(job.State(), isOpen, registered)
    }

    method Close()
      modifies this`isOpen
      ensures View() == Handle(old(View()), CloseCall, worker, task)
    {
      isOpen := false;
    }

    method AddTask(def: TaskDefinition, minted: Id) returns (r: Result<TaskRef>)
      modifies this`registered, job
      ensures View() == Handle(old(View()), AddCall(def, minted), worker, task)
      ensures r.Ok? <==> old(isOpen) && Jobs.AddTask(old(job.State()), def, worker, Some(task), minted).Ok?
      ensures r.Ok? ==>
                && r.value == Created(minted) && minted in job.tasks
                && IsAsDescribed(job.tasks[minted], def, worker, Some(task))
                && forall k :: 0 <= k < |def.dependsOn| ==> def.dependsOn[k] == Created(job.tasks[minted].dependsOn[k])
    {
      if !isOpen {
        return Err(Other);
      }
      var added := job.RegisterTask(def, worker, Some(task), minted);
      if added.Err? {
        return Err(Other);
      }
      registered := registered + {minted};
      return Ok(Created(added.value));
    }

    method CompleteTask(id: Id, output: string, now: Moment) returns (r: Result<()>)
      modifies job
      ensures View() == Handle(old(View()), CompleteCall(id, output, now), worker, task)
      ensures r.Ok? <==> old(isOpen) && Jobs.CompleteTask(old(job.State()), id, output, worker, now).Ok?
    {
      if !isOpen {
        return Err(Other);
      }
      r := job.FinishTask(id, output, worker, now);
    }

    method FailTask(id: Id, reason: Reason, retry: TaskRetry, now: Moment) returns (r: Result<()>)
      modifies job
      ensures View() == Handle(old(View()), FailCall(id, reason, retry, now), worker, task)
      ensures r.Ok? <==> old(isOpen) && Jobs.FailTask(old(job.State()), id, reason, retry, worker, now).Ok?
    {
      if !isOpen {
        return Err(Other);
      }
      ghost var before := job.State();
      var refused := job.RefuseTask(id, reason, retry, worker, now);
      assert Perform(before, FailCall(id, reason, retry, now), worker, task) == Jobs.FailTask(before, id, reason, retry, worker, now);
      return if refused.Ok? then Ok(()) else Err(Other);
    }

    method SkipTaskBranch(reason: Reason, now: Moment) returns (r: Result<()>)
      modifies job
      ensures View() == Handle(old(View()), SkipBranchCall(reason, now), worker, task)
      ensures r.Ok? <==> old(isOpen) && SkipTaskByExecutor(old(job.State()), task, reason, worker, now).Ok?
    {
      if !isOpen {
        return Err(Other);
      }
      r := job.SkipBranch(task, reason, worker, now);
    }

    method SetNextStartAt(at: Moment) returns (r: Result<()>)
      modifies job
      ensures View() == Handle(old(View()), SetNextStartCall(at), worker, task)
      ensures r.Ok? <==> old(isOpen)
    {
      if !isOpen {
        return Err(Other);
      }
      job.nextStartAt := Some(at);
      return Ok(());
    }
  }
}
