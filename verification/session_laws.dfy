/** What one execution does to its job, call by call and at its end, said in the job's tasks alone. */
module SessionLaws {
  import opened Base
  import opened Tasks
  import opened TaskLaws
  import opened Jobs
  import opened JobLaws
  import opened Sessions

  /** The task became `t`, and nothing else of the job changed. */
  ghost predicate IsResolvedAs(job: JobState, after: JobState, id: Id, t: Task) {
    after == job.(tasks := job.tasks[id := t])
  }

  /** The task failed, everything its execution created is gone, and nothing else of the job changed. */
  ghost predicate IsFailedAs(job: JobState, after: JobState, id: Id, reason: Reason, retry: TaskRetry, at: Moment) {
    && id in job.tasks && after == job.(tasks := after.tasks)
    && (forall x :: x in after.tasks <==> x in job.tasks && job.tasks[x].createdByTask != Some(id))
    && (forall x :: x in after.tasks ==>
          after.tasks[x]
          == if x == id then job.tasks[id].(status := Failed, reason := reason, retry := retry, completedAt := Some(at))
             else job.tasks[x])
  }

  predicate IsSettledTask(job: JobState, id: Id) {
    id in job.tasks && (job.tasks[id].status == Completed || job.tasks[id].status == Failed || job.tasks[id].status.Skipped?)
  }

  predicate RunsInTime(job: JobState, id: Id, worker: Id, now: Moment) {
    MayResolve(job, id, worker) && job.tasks[id].status == Started && !HasOutlived(job.tasks[id], now)
  }

  // ----- The calls -----

  /** Each call through an open handle, and what it makes of the job. */
  lemma CallLaw(job: JobState, call: Call, worker: Id, task: Id)
    ensures var performed := Perform(job, call, worker, task);
            match call
            case AddCall(def, minted) =>
              && (performed.Ok? <==>
                    && IsInOrder(def, job.settings.maxInputSize) && NamesHeld(def.dependsOn, job.tasks)
                    && task in job.tasks && job.tasks[task].status != Failed)
              && (performed.Ok? ==>
                    && minted in performed.value.tasks
                    && IsResolvedAs(job, performed.value, minted, performed.value.tasks[minted])
                    && IsAsDescribed(performed.value.tasks[minted], def, worker, Some(task)))
            case CompleteCall(id, output, now) =>
              && (performed.Ok? <==> |output| <= job.settings.maxOutputSize && RunsInTime(job, id, worker, now))
              && (performed.Ok? ==> IsResolvedAs(job, performed.value, id,
                    job.tasks[id].(status := Completed, output := output, completedAt := Some(now))))
            case FailCall(id, reason, retry, now) =>
              && (performed.Ok? <==> MayResolve(job, id, worker) && job.tasks[id].status == Started)
              && (performed.Ok? ==> IsFailedAs(job, performed.value, id, reason, retry, now))
            case SkipBranchCall(reason, now) =>
              && (performed.Ok? <==>
                    RunsInTime(job, task, worker, now) || (MayResolve(job, task, worker) && job.tasks[task].status == Blocked))
              && (performed.Ok? ==> IsResolvedAs(job, performed.value, task,
                    job.tasks[task].(status := Skipped(ExecutorDecision), reason := reason, completedAt := Some(now))))
            case SetNextStartCall(at) => performed == Ok(job.(nextStartAt := Some(at)))
            case CloseCall => performed == Ok(job)
  {
    match call
    case AddCall(def, minted) => AddedTaskIsAsDescribed(job, def, worker, Some(task), minted);
    case CompleteCall(id, output, now) => CompleteTaskLaw(job, id, output, worker, now);
    case FailCall(id, reason, retry, now) => FailTaskLaw(job, id, reason, retry, worker, now);
    case SkipBranchCall(reason, now) => SkipTaskLaw(job, task, reason, worker, now);
    case SetNextStartCall(_) =>
    case CloseCall =>
  }

  /** A call changes the job exactly if the handle is open and the call is accepted; only closing closes the handle. */
  lemma HandleLaw(s: Session, call: Call, worker: Id, task: Id)
    ensures var after, performed := Handle(s, call, worker, task), Perform(s.job, call, worker, task);
            && after.isOpen == (s.isOpen && call != CloseCall)
            && (s.isOpen && performed.Ok? ==> after.job == performed.value)
            && (!s.isOpen || performed.Err? ==> after.job == s.job && after.registered == s.registered)
            && (forall x :: x in after.registered <==>
                  x in s.registered || (s.isOpen && performed.Ok? && call.AddCall? && call.minted == x))
  {
  }

  // ----- The end -----

  /** The domain takes what the executor returned as the end of its task. */
  predicate IsTaken(job: JobState, task: Id, worker: Id, outcome: ExecutorOutcome, now: Moment) {
    match outcome
    case Returned(output) => |output| <= job.settings.maxOutputSize && RunsInTime(job, task, worker, now)
    case TerminallyFailed(_) => MayResolve(job, task, worker) && job.tasks[task].status == Started
    case SkippedBranch(_) =>
      RunsInTime(job, task, worker, now) || (MayResolve(job, task, worker) && job.tasks[task].status == Blocked)
    case Deferred => IsSettledTask(job, task)
    case Refused(_) => false
  }

  /**
   * What is recorded at the end of an execution. An output that is taken completes the task, a
   * terminal refusal fails it for good, and a skip skips it by decision. Whatever is not taken fails
   * the task for as long as its budget lasts, with the executor's reason if it gave one, unless the
   * task is settled already.
   */
  lemma OutcomeLaw(job: JobState, task: Id, worker: Id, outcome: ExecutorOutcome, now: Moment, later: Moment)
    ensures var recorded := ApplyOutcome(job, task, worker, outcome, now, later);
            if IsTaken(job, task, worker, outcome, now) then
              && recorded.Ok?
              && match outcome
                 case Returned(output) => IsResolvedAs(job, recorded.value, task,
                   job.tasks[task].(status := Completed, output := output, completedAt := Some(now)))
                 case TerminallyFailed(reason) => IsFailedAs(job, recorded.value, task, reason, TaskRetry.Never, now)
                 case SkippedBranch(reason) => IsResolvedAs(job, recorded.value, task,
                   job.tasks[task].(status := Skipped(ExecutorDecision), reason := reason, completedAt := Some(now)))
                 case Deferred => recorded.value == job
                 case Refused(_) => false
            else if IsSettledTask(job, task) then recorded == Ok(job)
            else
              && (recorded.Ok? <==> MayResolve(job, task, worker) && job.tasks[task].status == Started)
              && IsRefusedFor(recorded, job, task, worker)
              && (recorded.Ok? ==>
                    IsFailedAs(job, recorded.value, task,
                               if outcome.Refused? then outcome.reason else Message("execution failed"), WhileBudgetLasts, later))
  {
    match outcome
    case Returned(output) => CompleteTaskLaw(job, task, output, worker, now);
    case TerminallyFailed(reason) => FailTaskLaw(job, task, reason, TaskRetry.Never, worker, now);
    case SkippedBranch(reason) => SkipTaskLaw(job, task, reason, worker, now);
    case Deferred =>
    case Refused(_) =>
    if !IsTaken(job, task, worker, outcome, now) {
      var reason := if outcome.Refused? then outcome.reason else Message("execution failed");
      RecordLaw(job, task, reason, WhileBudgetLasts, worker, later);
      FailTaskLaw(job, task, reason, WhileBudgetLasts, worker, later);
    }
  }
}
