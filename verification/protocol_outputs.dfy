/** Where outputs come from: a task stored as completed carries what its owner's execution gave for it. */
module ProtocolOutputs {
  import opened Base
  import opened Tasks
  import opened TaskLaws
  import opened Cascades
  import opened Settling
  import opened Jobs
  import opened JobLaws
  import opened JobObject
  import opened Planning
  import opened SessionLaws
  import opened MergeLaws
  import MoveLaws
  import opened Protocol
  import opened ProtocolRuns
  import Sessions

  /** An execution of `worker` gave `output` for the task. */
  datatype Report = Report(worker: Id, task: Id, output: string)

  /** A running task has an owner, and a completed one the output its owner gave for it. */
  ghost predicate IsGiven(reports: set<Report>, x: Id, t: Task) {
    && (t.status == Started ==> t.owner.Some?)
    && (t.status == Completed ==> t.owner.Some? && Report(t.owner.value, x, t.output) in reports)
  }

  ghost predicate AllGiven(reports: set<Report>, tasks: TaskMap) {
    forall x {:trigger tasks[x]} :: x in tasks ==> IsGiven(reports, x, tasks[x])
  }

  ghost predicate PhaseGiven(reports: set<Report>, phase: Phase) {
    phase.Idle? || AllGiven(reports, phase.job.tasks)
  }

  ghost predicate StoreGiven(reports: set<Report>, world: World) {
    forall k {:trigger world.store[k]} :: k in world.store ==> AllGiven(reports, world.store[k].job.tasks)
  }

  // ----- What gives no output -----

  lemma {:induction false} DerivingGivesNothing(reports: set<Report>, tasks: TaskMap, now: Moment)
    requires AllGiven(reports, tasks)
    ensures AllGiven(reports, Cascade(tasks, now)) && AllGiven(reports, Derived(tasks, now))
  {
    CascadeOnlyPutsOut(tasks, now);
    var cascaded, derived := Cascade(tasks, now), Derived(tasks, now);
    forall x | x in tasks ensures IsGiven(reports, x, cascaded[x]) && IsGiven(reports, x, derived[x]) {
      assert LeftOrPutOut(tasks[x], cascaded[x]);
    }
  }

  lemma SettlingGivesNothing(reports: set<Report>, job: JobState, worker: Id, now: Moment, closedAt: Moment)
    requires AllGiven(reports, job.tasks)
    ensures AllGiven(reports, TrySettle(job, worker, now, closedAt).job.tasks)
  {
    SettlingLaw(job, worker, now, closedAt);
    DerivingGivesNothing(reports, job.tasks, now);
  }

  lemma LifetimesGiveNothing(reports: set<Report>, tasks: TaskMap, now: Moment)
    requires AllGiven(reports, tasks)
    ensures AllGiven(reports, FailByLifetime(tasks, now))
  {
  }

  lemma StartGivesNothing(reports: set<Report>, job: JobState, worker: Id, choice: Id, startAt: Moment)
    requires AllGiven(reports, job.tasks)
    ensures PhaseGiven(reports, AfterStart(job, worker, choice, startAt))
  {
    StartTaskLaw(job, choice, worker, startAt);
  }

  lemma PickGivesNothing(reports: set<Report>, job: JobState, worker: Id, r: PickReadings, choice: Id, startAt: Moment)
    requires AllGiven(reports, job.tasks)
    ensures PhaseGiven(reports, AfterPick(job, worker, r, choice, startAt))
  {
    MoveLaws.PreparedLaw(job, worker, r);
    if Prepared(job, worker, r).Ok? {
      var prepared := Prepared(job, worker, r).value;
      LifetimesGiveNothing(reports, job.tasks, r.failAt);
      StartGivesNothing(reports, prepared, worker, choice, startAt);
      SettlingGivesNothing(reports, prepared, worker, r.settleAt, r.closedAt);
      StartGivesNothing(reports, TrySettle(prepared, worker, r.settleAt, r.closedAt).job, worker, choice, startAt);
    }
  }

  lemma PlanningGivesNothing(reports: set<Report>, def: JobDefinition, jobId: Id, ids: seq<Id>, worker: Id, now: Moment)
    requires IsLegal(def) && |ids| == |def.initialTasks| && Distinct(ids)
    ensures NewJob(def, jobId, ids, worker, now).Ok? ==> AllGiven(reports, NewJob(def, jobId, ids, worker, now).value.tasks)
  {
    PlannedIterationIsSound(def, jobId, ids, worker, now);
    var tasks := NewJob(def, jobId, ids, worker, now).value.tasks;
    forall x | x in tasks ensures IsGiven(reports, x, tasks[x]) {
      var i :| 0 <= i < |ids| && ids[i] == x;
      PlannedTaskIsAsDescribed(def, jobId, ids, worker, now, i);
    }
  }

  lemma PickedMergeGivesNothing(reports: set<Report>, stored: JobState, ours: JobState, worker: Id, id: Id, now: Moment, later: Moment)
    requires AllGiven(reports, stored.tasks) && AllGiven(reports, ours.tasks)
    requires MergePicked(stored, ours, worker, id, now, later).Ok?
    ensures AllGiven(reports, MergePicked(stored, ours, worker, id, now, later).value.tasks)
  {
    PickedMergeCarries(stored, ours, worker, id, now, later);
    LifetimesGiveNothing(reports, stored.tasks, now);
    DerivingGivesNothing(reports, FailByLifetime(stored.tasks, now), later);
  }

  lemma ProcessedMergeGivesNothing(reports: set<Report>, stored: JobState, ours: JobState, worker: Id, id: Id, now: Moment, later: Moment)
    requires AllGiven(reports, stored.tasks) && AllGiven(reports, ours.tasks)
    ensures AllGiven(reports, MergeProcessed(stored, ours, worker, id, now, later).job.tasks)
  {
    var carried := CarriedOver(stored, ours, worker, now);
    CarriedLaw(stored, ours, worker, now);
    forall x | x in carried.tasks ensures IsGiven(reports, x, carried.tasks[x]) {
    }
    SettlingGivesNothing(reports, carried, worker, now, later);
    ProcessedMergeLaw(stored, ours, worker, id, now, later);
  }

  // ----- What does -----

  /** The output, if any, the move hands to the job. */
  ghost function Reported(worker: Id, phase: Phase, move: Move): set<Report> {
    if !phase.Executing? then {}
    else if move.Call? && move.call.CompleteCall? then {Report(worker, move.call.id, move.call.output)}
    else if move.Finish? && move.outcome.Returned? then {Report(worker, phase.task, move.outcome.output)}
    else {}
  }

  lemma ResolvingIsGiven(reports: set<Report>, job: JobState, after: JobState, id: Id, t: Task)
    requires AllGiven(reports, job.tasks) && IsResolvedAs(job, after, id, t) && IsGiven(reports, id, t)
    ensures AllGiven(reports, after.tasks)
  {
  }

  lemma FailingIsGiven(reports: set<Report>, job: JobState, after: JobState, id: Id, reason: Reason, retry: TaskRetry, at: Moment)
    requires AllGiven(reports, job.tasks) && IsFailedAs(job, after, id, reason, retry, at)
    ensures AllGiven(reports, after.tasks)
  {
  }

  lemma CallIsGiven(reports: set<Report>, job: JobState, worker: Id, task: Id, call: Sessions.Call)
    requires AllGiven(reports, job.tasks) && Sessions.Perform(job, call, worker, task).Ok?
    requires call.CompleteCall? ==> Report(worker, call.id, call.output) in reports
    ensures AllGiven(reports, Sessions.Perform(job, call, worker, task).value.tasks)
  {
    var after := Sessions.Perform(job, call, worker, task).value;
    CallLaw(job, call, worker, task);
    match call
    case AddCall(_, minted) => ResolvingIsGiven(reports, job, after, minted, after.tasks[minted]);
    case CompleteCall(id, _, _) => ResolvingIsGiven(reports, job, after, id, after.tasks[id]);
    case FailCall(id, reason, retry, now) => FailingIsGiven(reports, job, after, id, reason, retry, now);
    case SkipBranchCall(_, _) => ResolvingIsGiven(reports, job, after, task, after.tasks[task]);
    case SetNextStartCall(_) =>
    case CloseCall =>
  }

  lemma OutcomeIsGiven(reports: set<Report>, job: JobState, worker: Id, task: Id, outcome: Sessions.ExecutorOutcome,
                       now: Moment, later: Moment)
    requires AllGiven(reports, job.tasks) && Sessions.ApplyOutcome(job, task, worker, outcome, now, later).Ok?
    requires outcome.Returned? ==> Report(worker, task, outcome.output) in reports
    ensures AllGiven(reports, Sessions.ApplyOutcome(job, task, worker, outcome, now, later).value.tasks)
  {
    var after := Sessions.ApplyOutcome(job, task, worker, outcome, now, later).value;
    OutcomeLaw(job, task, worker, outcome, now, later);
    if IsTaken(job, task, worker, outcome, now) {
      match outcome
      case Returned(_) => ResolvingIsGiven(reports, job, after, task, after.tasks[task]);
      case TerminallyFailed(reason) => FailingIsGiven(reports, job, after, task, reason, TaskRetry.Never, now);
      case SkippedBranch(_) => ResolvingIsGiven(reports, job, after, task, after.tasks[task]);
      case Deferred =>
    } else if !IsSettledTask(job, task) {
      var reason := if outcome.Refused? then outcome.reason else Message("execution failed");
      FailingIsGiven(reports, job, after, task, reason, WhileBudgetLasts, later);
    }
  }

  // ----- The steps -----

  lemma MoreReports(reports: set<Report>, more: set<Report>, world: World, phase: Phase)
    requires reports <= more
    ensures StoreGiven(reports, world) ==> StoreGiven(more, world)
    ensures PhaseGiven(reports, phase) ==> PhaseGiven(more, phase)
  {
    if StoreGiven(reports, world) {
      forall k | k in world.store ensures AllGiven(more, world.store[k].job.tasks) {
        MoreReportsHere(reports, more, world.store[k].job.tasks);
      }
    }
    if PhaseGiven(reports, phase) && !phase.Idle? {
      MoreReportsHere(reports, more, phase.job.tasks);
    }
  }

  lemma MoreReportsHere(reports: set<Report>, more: set<Report>, tasks: TaskMap)
    requires reports <= more && AllGiven(reports, tasks)
    ensures AllGiven(more, tasks)
  {
    forall x | x in tasks ensures IsGiven(more, x, tasks[x]) {
      assert IsGiven(reports, x, tasks[x]);
    }
  }

  lemma PlanningActGivesNothing(reports: set<Report>, def: JobDefinition, world: World, worker: Id, phase: Phase,
                                jobId: Id, ids: seq<Id>, now: Moment)
    requires IsLegal(def) && PhaseGiven(reports, phase)
    ensures PhaseGiven(reports, ActCreate(def, world, worker, phase, jobId, ids, now).1)
    ensures PhaseGiven(reports, ActAdvance(def, world, worker, phase, ids, now).1)
  {
    if |ids| == |def.initialTasks| && AreFresh(world, ids) {
      PlanningGivesNothing(reports, def, jobId, ids, worker, now);
      if phase.Advancing? {
        PlanningGivesNothing(reports, def, phase.job.id, ids, worker, now);
        NextIterationLaw(phase.job, def, ids, worker, now);
      }
    }
  }

  lemma ConflictGivesNothing(reports: set<Report>, worker: Id, phase: Phase, saved: JobState, now: Moment, later: Moment)
    requires IsSaving(phase) && AllGiven(reports, saved.tasks) && AllGiven(reports, phase.job.tasks)
    ensures PhaseGiven(reports, AfterConflict(phase, worker, saved, now, later))
  {
    if phase.SavingStart? {
      if MergePicked(saved, phase.job, worker, phase.task, now, later).Ok? {
        PickedMergeGivesNothing(reports, saved, phase.job, worker, phase.task, now, later);
      }
    } else if phase.SavingResult? {
      ProcessedMergeGivesNothing(reports, saved, phase.job, worker, phase.task, now, later);
    }
  }

  lemma MergeActGivesNothing(reports: set<Report>, world: World, worker: Id, phase: Phase, now: Moment, later: Moment)
    requires StoreGiven(reports, world) && PhaseGiven(reports, phase)
    ensures PhaseGiven(reports, ActMerge(world, worker, phase, now, later).1)
  {
    if IsSaving(phase) && Newest(world.store) in world.store {
      ConflictGivesNothing(reports, worker, phase, world.store[Newest(world.store)].job, now, later);
    }
  }

  lemma PersistingGivesNothing(reports: set<Report>, job: JobState)
    requires AllGiven(reports, job.tasks)
    ensures AllGiven(reports, Persisted(job).tasks)
  {
    forall x | x in job.tasks ensures IsGiven(reports, x, Persisted(job).tasks[x]) {
      assert IsGiven(reports, x, job.tasks[x]);
    }
  }

  lemma WriteActGivesNothing(reports: set<Report>, world: World, phase: Phase, isAcknowledged: bool)
    requires StoreGiven(reports, world) && PhaseGiven(reports, phase)
    ensures StoreGiven(reports, ActWrite(world, phase, isAcknowledged).0)
    ensures PhaseGiven(reports, ActWrite(world, phase, isAcknowledged).1)
  {
    if IsSaving(phase) && IsWriteAllowed(world, phase.job) {
      PersistingGivesNothing(reports, phase.job.(version := Some(world.nextVersion)));
    }
  }

  lemma ExecutionActIsGiven(reports: set<Report>, world: World, worker: Id, phase: Phase, move: Move)
    requires PhaseGiven(reports, phase) && Reported(worker, phase, move) <= reports
    ensures move.Call? ==> PhaseGiven(reports, ActCall(world, worker, phase, move.call).1)
    ensures move.Finish? ==>
              PhaseGiven(reports, ActFinish(world, worker, phase, move.outcome, move.now, move.later, move.settleAt, move.closedAt).1)
  {
    if phase.Executing? {
      if move.Call? && Sessions.Perform(phase.job, move.call, worker, phase.task).Ok? {
        CallIsGiven(reports, phase.job, worker, phase.task, move.call);
      } else if move.Finish? {
        var applied := Sessions.ApplyOutcome(phase.job, phase.task, worker, move.outcome, move.now, move.later);
        if applied.Ok? {
          OutcomeIsGiven(reports, phase.job, worker, phase.task, move.outcome, move.now, move.later);
          SettlingGivesNothing(reports, applied.value, worker, move.settleAt, move.closedAt);
        }
      }
    }
  }

  lemma ActIsGiven(reports: set<Report>, def: JobDefinition, world: World, worker: Id, phase: Phase, move: Move)
    requires IsLegal(def) && StoreGiven(reports, world) && PhaseGiven(reports, phase)
    requires Reported(worker, phase, move) <= reports
    ensures PhaseGiven(reports, Act(def, world, worker, phase, move).1)
    ensures StoreGiven(reports, Act(def, world, worker, phase, move).0)
  {
    match move
    case Create(jobId, ids, now) => PlanningActGivesNothing(reports, def, world, worker, phase, jobId, ids, now);
    case Advance(ids, now) => PlanningActGivesNothing(reports, def, world, worker, phase, 0, ids, now);
    case Pick(r, choice, startAt) =>
      if phase.Open? {
        PickGivesNothing(reports, phase.job, worker, r, choice, startAt);
      }
    case Read =>
    case Write(isAcknowledged) => WriteActGivesNothing(reports, world, phase, isAcknowledged);
    case Merge(now, later) => MergeActGivesNothing(reports, world, worker, phase, now, later);
    case Call(_) => ExecutionActIsGiven(reports, world, worker, phase, move);
    case Finish(_, _, _, _, _) => ExecutionActIsGiven(reports, world, worker, phase, move);
    case Stop =>
  }

  // ----- Runs -----

  /** Every output any move of the run handed to its worker's copy. */
  ghost function Reports(def: JobDefinition, moves: seq<(Id, Move)>): set<Report>
    requires IsLegal(def)
  {
    if moves == [] then {}
    else
      var before := moves[..|moves| - 1];
      var (worker, move) := moves[|moves| - 1];
      Reports(def, before) + Reported(worker, PhaseOf(Run(def, before), worker), move)
  }

  ghost predicate WorkerGiven(reports: set<Report>, s: System, worker: Id) {
    PhaseGiven(reports, PhaseOf(s, worker))
  }

  lemma {:induction false} RunStaysGiven(def: JobDefinition, moves: seq<(Id, Move)>)
    requires IsLegal(def)
    ensures StoreGiven(Reports(def, moves), Run(def, moves).world)
    ensures forall worker {:trigger WorkerGiven(Reports(def, moves), Run(def, moves), worker)} ::
              WorkerGiven(Reports(def, moves), Run(def, moves), worker)
  {
    if moves != [] {
      var before := moves[..|moves| - 1];
      var (worker, move) := moves[|moves| - 1];
      RunStaysGiven(def, before);
      var s, s', reports, more := Run(def, before), Run(def, moves), Reports(def, before), Reports(def, moves);
      assert WorkerGiven(reports, s, worker);
      MoreReports(reports, more, s.world, PhaseOf(s, worker));
      ActIsGiven(more, def, s.world, worker, PhaseOf(s, worker), move);
      forall other ensures WorkerGiven(more, s', other) {
        if other != worker {
          assert WorkerGiven(reports, s, other);
          MoreReports(reports, more, s.world, PhaseOf(s, other));
        }
      }
    }
  }

  /** Move `i` is `worker`, executing, handing in `output` for task `x`: by a call, or as what its executor returned. */
  ghost predicate HandsIn(def: JobDefinition, moves: seq<(Id, Move)>, i: nat, report: Report)
    requires IsLegal(def) && i < |moves|
  {
    && moves[i].0 == report.worker
    && var phase, move := PhaseOf(Run(def, moves[..i]), report.worker), moves[i].1;
       && phase.Executing?
       && ((move.Call? && move.call.CompleteCall? && move.call.id == report.task && move.call.output == report.output)
           || (move.Finish? && move.outcome == Sessions.Returned(report.output) && phase.task == report.task))
  }

  lemma {:induction false} ReportWasHandedIn(def: JobDefinition, moves: seq<(Id, Move)>, report: Report) returns (i: nat)
    requires IsLegal(def) && report in Reports(def, moves)
    ensures i < |moves| && HandsIn(def, moves, i, report)
  {
    var before := moves[..|moves| - 1];
    if report in Reports(def, before) {
      i := ReportWasHandedIn(def, before, report);
      assert before[..i] == moves[..i];
    } else {
      i := |moves| - 1;
    }
  }

  /**
   * Whatever the workers do and however their writes race: the output of every task stored as
   * completed is one that the worker stored as its owner handed in for that very task, at a move of
   * the run made while it was executing.
   */
  lemma {:induction false} StoredOutputsWereHandedIn(def: JobDefinition, moves: seq<(Id, Move)>, k: nat, x: Id) returns (i: nat)
    requires IsLegal(def)
    requires var store := Run(def, moves).world.store;
             k in store && x in store[k].job.tasks && store[k].job.tasks[x].status == Completed
    ensures var t := Run(def, moves).world.store[k].job.tasks[x];
            t.owner.Some? && i < |moves| && HandsIn(def, moves, i, Report(t.owner.value, x, t.output))
  {
    RunStaysGiven(def, moves);
    var t := Run(def, moves).world.store[k].job.tasks[x];
    assert IsGiven(Reports(def, moves), x, t);
    i := ReportWasHandedIn(def, moves, Report(t.owner.value, x, t.output));
  }
}
