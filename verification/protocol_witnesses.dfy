/**
 * Concrete runs of the protocol, move by move, in which a settled stored task stops being what it
 * was: the hypotheses of the merge theorems cannot be dropped.
 */
module ProtocolWitnesses {
  import opened Base
  import opened Tasks
  import opened Cascades
  import opened Settling
  import opened Jobs
  import opened JobObject
  import opened Planning
  import opened Protocol
  import opened ProtocolStretches
  import Cycles
  import Sessions

  const MINUTE: Span := 60 * SECOND
  const HOUR: Span := 60 * MINUTE
  const SETTINGS := Settings(None, None, 1024, 1024)

  // ----- Looking for work and finishing, with nothing to derive -----

  /** Without a blocked task there is nothing to put out and nothing to release. */
  lemma NothingBlockedNothingDerived(tasks: TaskMap, now: Moment)
    requires forall id :: id in tasks ==> !tasks[id].status.Blocked?
    ensures Derived(tasks, now) == tasks
  {
    assert Generation(tasks, now) == {};
    assert UnblockSatisfied(tasks, now) == tasks;
  }

  /** A task that may be started is picked up as the iteration stands. */
  lemma PickStarts(job: JobState, worker: Id, x: Id, t: Moment) returns (started: JobState)
    requires !IsProcessed(job) && x in job.tasks && CheckAvailability(job.tasks[x], t).Pickable?
    requires FailByLifetime(job.tasks, t) == job.tasks && Start(job.tasks[x], worker, t).Ok?
    ensures AfterPick(job, worker, AllAt(t), x, t) == SavingStart(started, x)
    ensures started.tasks == job.tasks[x := Start(job.tasks[x], worker, t).value] && started.status == JobRunning
    ensures started.id == job.id && started.iterNum == job.iterNum && started.version == job.version
    ensures started.settings == job.settings
  {
    var prepared := Prepared(job, worker, AllAt(t)).value;
    assert prepared.tasks == job.tasks;
    started := StartTask(prepared, x, worker, t).value;
  }

  /** A completed task that leaves another one to do. */
  lemma CompletionStays(job: JobState, worker: Id, x: Id, t: Moment) returns (settled: JobState)
    requires job.status == JobRunning && job.settings == SETTINGS
    requires x in job.tasks && job.tasks[x].owner == Some(worker) && Complete(job.tasks[x], "done", t).Ok?
    requires forall y :: y in job.tasks ==> !job.tasks[y].status.Blocked?
    requires AnyKeepsOpen(job.tasks[x := Complete(job.tasks[x], "done", t).value], t)
    ensures settled == job.(tasks := job.tasks[x := Complete(job.tasks[x], "done", t).value])
    ensures Sessions.ApplyOutcome(job, x, worker, Sessions.Returned("done"), t, t) == Ok(settled)
    ensures TrySettle(settled, worker, t, t).job == settled
  {
    settled := CompleteTask(job, x, "done", worker, t).value;
    NothingBlockedNothingDerived(settled.tasks, t);
  }

  // ----- Stretches -----

  lemma TakesUp(def: JobDefinition, c: Chain, worker: Id, v: nat, job: JobState, x: Id, t: Moment) returns (c': Chain, job': JobState)
    requires IsChain(def, c) && Shows(Now(c).world, v, job) && PhaseOf(Now(c), worker).Idle? && FromStorage(job.tasks)
    requires x in job.tasks && CheckAvailability(job.tasks[x], t).Pickable?
    requires FailByLifetime(job.tasks, t) == job.tasks && Start(job.tasks[x], worker, t).Ok?
    ensures IsChain(def, c') && Shows(Now(c').world, v + 1, job') && OthersUntouched(Now(c), Now(c'), worker)
    ensures PhaseOf(Now(c'), worker) == Executing(job', x)
    ensures job'.tasks == job.tasks[x := Start(job.tasks[x], worker, t).value]
    ensures job'.status == JobRunning && job'.settings == job.settings
  {
    var read := Reads(def, c, worker, v, job);
    var started := PickStarts(job, worker, x, t);
    var picked := MovePick(def, read, worker, job, AllAt(t), x, t, SavingStart(started, x));
    c', job' := Saves(def, picked, worker, v, job, SavingStart(started, x));
  }

  /** A task is completed and its result not saved yet. */
  lemma Completes(def: JobDefinition, c: Chain, worker: Id, job: JobState, x: Id, t: Moment) returns (c': Chain, done: JobState)
    requires IsChain(def, c) && PhaseOf(Now(c), worker) == Executing(job, x) && job.status == JobRunning && job.settings == SETTINGS
    requires x in job.tasks && job.tasks[x].owner == Some(worker) && Complete(job.tasks[x], "done", t).Ok?
    requires forall y :: y in job.tasks ==> !job.tasks[y].status.Blocked?
    requires AnyKeepsOpen(job.tasks[x := Complete(job.tasks[x], "done", t).value], t)
    ensures done == job.(tasks := job.tasks[x := Complete(job.tasks[x], "done", t).value])
    ensures IsChain(def, c') && Now(c') == With(Now(c), worker, SavingResult(done, x))
  {
    done := CompletionStays(job, worker, x, t);
    c' := MoveFinish(def, c, worker, job, x, Sessions.Returned("done"), t, done, done);
  }

  /** A task worker 10 started before and may still be taken up by another, as it stands at four moments. */
  ghost predicate MayBounce(mine: Task, t1: Moment, t2: Moment, t3: Moment, t4: Moment) {
    && mine.owner == Some(10) && mine.createdByTask.None? && (mine.status.Started? || mine.status.Failed?)
    && 0 <= t1 <= t2 <= t3 <= t4 <= MINUTE * 4
    && !CheckAvailability(mine, t1).ExpiredPastLifetime? && !CheckAvailability(mine, t2).ExpiredPastLifetime?
    && CheckAvailability(mine, t2).Pickable? && Start(mine, 20, t2).Ok?
    && Start(mine, 20, t2).value.lifetimeDeadlineAt.Some? && t3 <= Start(mine, 20, t2).value.lifetimeDeadlineAt.value
    && KeepsOpen(mine, t3) && KeepsOpen(mine, t4)
  }

  function Definition(tolerance: Tolerance, dependsOn: seq<TaskRef>): TaskDefinition {
    TaskDefinition(MINUTE, 5 * MINUTE, 5, 0, tolerance, dependsOn)
  }

  /** A task worker 10 created that depends on nothing and tolerates nothing. */
  function Fresh(): Task {
    NewTask(10, None, Definition(Tolerance(false, false), []), [])
  }

  function TwoTasks(): JobDefinition {
    JobDefinition(7, [Definition(Tolerance(false, false), []), Definition(Tolerance(false, false), [])], SETTINGS)
  }

  lemma TwoTasksAreLegal()
    ensures IsLegal(TwoTasks())
  {
    var g := GraphOf(TwoTasks().initialTasks);
    assert Cycles.IsRank(g, [0, 0]);
  }

  lemma PlannedPair(job: JobState)
    requires NewJob(TwoTasks(), 0, [1, 2], 10, 0) == Ok(job)
    ensures job.tasks == map[1 := Fresh(), 2 := Fresh()] && job.settings == SETTINGS
  {
    var defs := TwoTasks().initialTasks;
    assert PlanTasks(defs, [1, 2], 10, 0) == Ok(map[]);
    assert PlanTasks(defs, [1, 2], 10, 1) == Ok(map[1 := Fresh()]);
    assert PlanTasks(defs, [1, 2], 10, 2) == Ok(map[1 := Fresh(), 2 := Fresh()]);
  }

  function Second(t: Moment): Task
    requires t <= MINUTE * 4
  {
    Start(Fresh(), 10, t).value
  }

  /** No task of the pair is past its lifetime. */
  lemma PairStaysAlive(a: Task, b: Task, t: Moment)
    requires !CheckAvailability(a, t).ExpiredPastLifetime? && !CheckAvailability(b, t).ExpiredPastLifetime?
    ensures var tasks: TaskMap := map[1 := a, 2 := b]; FailByLifetime(tasks, t) == tasks
  {
  }

  /** Worker 10 takes task 2 up. */
  lemma TakesSecond(def: JobDefinition, c: Chain, v: nat, job: JobState, mine: Task, t1: Moment, t2: Moment, t3: Moment, t4: Moment)
    returns (c': Chain, held: JobState)
    requires IsChain(def, c) && Shows(Now(c).world, v, job) && MayBounce(mine, t1, t2, t3, t4) && PhaseOf(Now(c), 10).Idle?
    requires job.tasks == map[1 := mine, 2 := Fresh()] && job.settings == SETTINGS
    ensures IsChain(def, c') && Shows(Now(c').world, v + 1, held) && OthersUntouched(Now(c), Now(c'), 10)
    ensures held.tasks == map[1 := mine, 2 := Second(t1)] && held.status == JobRunning && held.settings == SETTINGS
    ensures PhaseOf(Now(c'), 10) == Executing(held, 2)
  {
    PairStaysAlive(mine, Fresh(), t1);
    c', held := TakesUp(def, c, 10, v, job, 2, t1);
  }

  /** Worker 20 takes over task 1. */
  lemma TakesFirst(def: JobDefinition, c: Chain, v: nat, held: JobState, mine: Task, t1: Moment, t2: Moment, t3: Moment, t4: Moment)
    returns (c': Chain, stored: JobState)
    requires IsChain(def, c) && Shows(Now(c).world, v, held) && MayBounce(mine, t1, t2, t3, t4) && PhaseOf(Now(c), 20).Idle?
    requires held.tasks == map[1 := mine, 2 := Second(t1)] && held.settings == SETTINGS
    ensures IsChain(def, c') && Shows(Now(c').world, v + 1, stored) && OthersUntouched(Now(c), Now(c'), 20)
    ensures stored.tasks == map[1 := Start(mine, 20, t2).value, 2 := Second(t1)]
    ensures stored.status == JobRunning && stored.settings == SETTINGS
    ensures PhaseOf(Now(c'), 20) == Executing(stored, 1)
  {
    PairStaysAlive(mine, Second(t1), t2);
    c', stored := TakesUp(def, c, 20, v, held, 1, t2);
  }

  function Done(t: Task, at: Moment): Task
    requires Complete(t, "done", at).Ok?
  {
    Complete(t, "done", at).value
  }

  /** Worker 20 completes what it took over, and its result is stored. */
  lemma FirstIsDone(def: JobDefinition, c: Chain, v: nat, job: JobState, theirs: Task, second: Task, t3: Moment)
    returns (c': Chain, stored: JobState)
    requires IsChain(def, c) && Shows(Now(c).world, v, job) && PhaseOf(Now(c), 20) == Executing(job, 1)
    requires job.tasks == map[1 := theirs, 2 := second] && job.status == JobRunning && job.settings == SETTINGS
    requires theirs.owner == Some(20) && Complete(theirs, "done", t3).Ok? && second.status.Started? && FromStorage(job.tasks)
    ensures IsChain(def, c') && Shows(Now(c').world, v + 1, stored) && OthersUntouched(Now(c), Now(c'), 20)
    ensures stored.tasks == map[1 := Done(theirs, t3), 2 := second] && stored.status == JobRunning && stored.settings == SETTINGS
  {
    assert KeepsOpen(second, t3) && job.tasks[1 := Done(theirs, t3)][2] == second;
    var ended, done := Completes(def, c, 20, job, 1, t3);
    c', stored := Saves(def, ended, 20, v, job, SavingResult(done, 1));
  }

  /** Worker 10 completes task 2, with its own version of task 1 still in its copy. */
  lemma SecondIsDone(def: JobDefinition, c: Chain, held: JobState, mine: Task, second: Task, t3: Moment)
    returns (c': Chain, done: JobState)
    requires IsChain(def, c) && PhaseOf(Now(c), 10) == Executing(held, 2)
    requires held.tasks == map[1 := mine, 2 := second] && held.status == JobRunning && held.settings == SETTINGS
    requires second.owner == Some(10) && Complete(second, "done", t3).Ok? && KeepsOpen(mine, t3) && !mine.status.Blocked?
    ensures done == held.(tasks := map[1 := mine, 2 := Done(second, t3)])
    ensures IsChain(def, c') && Now(c') == With(Now(c), 10, SavingResult(done, 2))
  {
    assert held.tasks[2 := Done(second, t3)][1] == mine;
    c', done := Completes(def, c, 10, held, 2, t3);
    assert held.tasks[2 := Done(second, t3)] == map[1 := mine, 2 := Done(second, t3)];
  }

  /** A copy whose every task its worker owns replaces the stored tasks. */
  lemma OwnedCopyWins(stored: JobState, ours: JobState, worker: Id, id: Id, now: Moment)
    requires stored.id == ours.id && !IsProcessed(stored) && stored.tasks.Keys <= ours.tasks.Keys
    requires id in stored.tasks && CheckOwner(stored.tasks[id], worker).Ok?
    requires forall x :: x in ours.tasks ==> ours.tasks[x].owner == Some(worker) && !ours.tasks[x].status.Blocked?
    requires AnyKeepsOpen(ours.tasks, now)
    ensures var merged := MergeProcessed(stored, ours, worker, id, now, now);
            merged.result.Ok? && merged.job.tasks == ours.tasks
            && merged.job.id == stored.id && merged.job.iterNum == stored.iterNum && merged.job.version == stored.version
            && !IsProcessed(merged.job)
  {
    assert MergeTasks(stored.tasks, ours.tasks, worker) == ours.tasks;
    NothingBlockedNothingDerived(ours.tasks, now);
  }

  /** The result of task 2 meets a conflict, is merged and stored - and task 1 with it. */
  lemma ResultBringsBack(def: JobDefinition, c: Chain, v: nat, stored: JobState, ours: JobState, t4: Moment)
    returns (c': Chain, final: JobState, last: Chain)
    requires IsChain(def, c) && Shows(Now(c).world, v, stored) && PhaseOf(Now(c), 10) == SavingResult(ours, 2)
    requires ours.id == 0 && ours.iterNum == 1 && ours.version.Some? && ours.version != Some(v)
    requires ours.tasks.Keys == stored.tasks.Keys == {1, 2} && stored.tasks[2].owner == Some(10) && FromStorage(ours.tasks)
    requires forall x :: x in ours.tasks ==> ours.tasks[x].owner == Some(10) && !ours.tasks[x].status.Blocked?
    requires AnyKeepsOpen(ours.tasks, t4)
    ensures IsChain(def, last) && Shows(Now(last).world, v, stored)
    ensures IsChain(def, c') && Shows(Now(c').world, v + 1, final) && final.tasks == ours.tasks
    ensures c'.moves == last.moves + [(10, Write(true))]
  {
    OwnedCopyWins(stored, ours, 10, 2, t4);
    var merged := MergeProcessed(stored, ours, 10, 2, t4, t4).job;
    last := MoveMerge(def, c, 10, SavingResult(ours, 2), v, stored, t4, SavingResult(merged, 2));
    c', final := Saves(def, last, 10, v, stored, SavingResult(merged, 2));
  }

  /** Worker 10 takes task 2 up; worker 20 takes task 1 over and completes it. */
  lemma TakenOver(def: JobDefinition, c: Chain, v: nat, job: JobState, mine: Task, t1: Moment, t2: Moment, t3: Moment, t4: Moment)
    returns (c': Chain, held: JobState, stored: JobState)
    requires IsChain(def, c) && Shows(Now(c).world, v, job) && MayBounce(mine, t1, t2, t3, t4)
    requires PhaseOf(Now(c), 10).Idle? && PhaseOf(Now(c), 20).Idle?
    requires job.tasks == map[1 := mine, 2 := Fresh()] && job.settings == SETTINGS
    ensures IsChain(def, c') && Shows(Now(c').world, v + 3, stored) && PhaseOf(Now(c'), 10) == Executing(held, 2)
    ensures held.tasks == map[1 := mine, 2 := Second(t1)] && held.version == Some(v + 1)
    ensures held.id == 0 && held.iterNum == 1 && held.status == JobRunning && held.settings == SETTINGS
    ensures stored.tasks.Keys == {1, 2} && stored.tasks[2] == Second(t1)
    ensures stored.tasks[1].status.Completed? && stored.tasks[1].owner == Some(20)
    ensures stored.tasks[1].attempt == Start(mine, 20, t2).value.attempt
  {
    var c1: Chain;
    c1, held := TakesSecond(def, c, v, job, mine, t1, t2, t3, t4);
    assert PhaseOf(Now(c1), 20) == PhaseOf(Now(c), 20);
    var c2, running := TakesFirst(def, c1, v + 1, held, mine, t1, t2, t3, t4);
    assert PhaseOf(Now(c2), 10) == PhaseOf(Now(c1), 10);
    c', stored := FirstIsDone(def, c2, v + 2, running, Start(mine, 20, t2).value, Second(t1), t3);
    assert PhaseOf(Now(c'), 10) == PhaseOf(Now(c2), 10);
  }

  /**
   * Worker 10 has started task 1 before and still owns it. It takes task 2 up; worker 20 takes task 1
   * over and completes it; the result of task 2 then puts worker 10's version of task 1 back.
   */
  lemma Bounces(def: JobDefinition, c: Chain, v: nat, job: JobState, mine: Task, t1: Moment, t2: Moment, t3: Moment, t4: Moment)
    returns (last: Chain, c': Chain, stored: JobState, final: JobState)
    requires IsChain(def, c) && Shows(Now(c).world, v, job) && MayBounce(mine, t1, t2, t3, t4)
    requires PhaseOf(Now(c), 10).Idle? && PhaseOf(Now(c), 20).Idle?
    requires job.tasks == map[1 := mine, 2 := Fresh()] && job.settings == SETTINGS
    ensures IsChain(def, last) && Shows(Now(last).world, v + 3, stored)
    ensures 1 in stored.tasks && stored.tasks[1].status.Completed? && stored.tasks[1].owner == Some(20)
    ensures stored.tasks[1].attempt == Start(mine, 20, t2).value.attempt
    ensures IsChain(def, c') && Shows(Now(c').world, v + 4, final) && 1 in final.tasks && final.tasks[1] == mine
    ensures c'.moves == last.moves + [(10, Write(true))]
  {
    var c3, held: JobState;
    c3, held, stored := TakenOver(def, c, v, job, mine, t1, t2, t3, t4);
    var c4, done := SecondIsDone(def, c3, held, mine, Second(t1), t3);
    assert done.tasks[1] == mine;
    c', final, last := ResultBringsBack(def, c4, v + 3, stored, done, t4);
  }

  /** Worker 10 creates the iteration and takes task 1 up. */
  lemma FirstIsTaken() returns (c: Chain, job: JobState)
    ensures IsChain(TwoTasks(), c) && Shows(Now(c).world, 1, job) && PhaseOf(Now(c), 10) == Executing(job, 1)
    ensures PhaseOf(Now(c), 20).Idle?
    ensures job.tasks == map[1 := Second(0), 2 := Fresh()] && job.status == JobRunning && job.settings == SETTINGS
  {
    TwoTasksAreLegal();
    var planned := PlannedIsFromStorage(TwoTasks(), [1, 2], 10, 0);
    PlannedPair(planned);
    var c0 := Begins(TwoTasks(), [1, 2], 10, 0, planned);
    PairStaysAlive(Fresh(), Fresh(), 0);
    c, job := TakesUp(TwoTasks(), c0, 10, 0, planned.(version := Some(0)), 1, 0);
    assert PhaseOf(Now(c0), 20).Idle?;
  }

  /** A completed stored task that worker 10's next write makes startable again. */
  ghost predicate ComesBack(moves: seq<(Id, Move)>, x: Id, now: Moment)
    requires IsLegal(TwoTasks())
  {
    var before, after := Run(TwoTasks(), moves).world.store, Run(TwoTasks(), moves + [(10, Write(true))]).world.store;
    && 1 in before && x in before[1].job.tasks && before[1].job.tasks[x].status.Completed?
    && 1 in after && x in after[1].job.tasks && CheckAvailability(after[1].job.tasks[x], now).Pickable?
  }

  lemma BounceComesBack(c: Chain, v: nat, job: JobState, mine: Task, t1: Moment, t2: Moment, t3: Moment, t4: Moment)
    returns (moves: seq<(Id, Move)>, stored: JobState, final: JobState)
    requires IsChain(TwoTasks(), c) && Shows(Now(c).world, v, job) && MayBounce(mine, t1, t2, t3, t4)
    requires PhaseOf(Now(c), 10).Idle? && PhaseOf(Now(c), 20).Idle? && CheckAvailability(mine, t4).Pickable?
    requires job.tasks == map[1 := mine, 2 := Fresh()] && job.settings == SETTINGS
    ensures ComesBack(moves, 1, t4)
    ensures Shows(Run(TwoTasks(), moves).world, v + 3, stored)
    ensures 1 in stored.tasks && stored.tasks[1].attempt == Start(mine, 20, t2).value.attempt
    ensures Shows(Run(TwoTasks(), moves + [(10, Write(true))]).world, v + 4, final) && 1 in final.tasks && final.tasks[1] == mine
  {
    var last, c';
    last, c', stored, final := Bounces(TwoTasks(), c, v, job, mine, t1, t2, t3, t4);
    ChainIsRun(TwoTasks(), last);
    ChainIsRun(TwoTasks(), c');
    moves := last.moves;
  }

  /**
   * Worker 10 is released from task 1 by its deadline and saves nothing. After a takeover has
   * completed the task, its next result puts it back to running.
   */
  lemma ReleasedTaskComesBack() returns (moves: seq<(Id, Move)>, final: JobState)
    ensures IsLegal(TwoTasks()) && ComesBack(moves, 1, 3 * MINUTE)
    ensures Shows(Run(TwoTasks(), moves + [(10, Write(true))]).world, 5, final) && 1 in final.tasks && final.tasks[1].status.Started?
  {
    TwoTasksAreLegal();
    var c, job := FirstIsTaken();
    var stopped := MoveStop(TwoTasks(), c, 10);
    assert PhaseOf(Now(stopped), 20) == PhaseOf(Now(c), 20);
    var stored;
    moves, stored, final := BounceComesBack(stopped, 1, job, Second(0), MINUTE, 2 * MINUTE, 3 * MINUTE, 3 * MINUTE);
  }

  function Refused(): Task {
    Second(0).(status := Failed, reason := Message("refused"), retry := WhileBudgetLasts, completedAt := Some(0))
  }

  lemma RefusalStays(job: JobState) returns (refused: JobState)
    requires job.tasks == map[1 := Second(0), 2 := Fresh()] && job.status == JobRunning
    ensures refused == job.(tasks := map[1 := Refused(), 2 := Fresh()])
    ensures Sessions.ApplyOutcome(job, 1, 10, Sessions.Refused(Message("refused")), 0, 0) == Ok(refused)
    ensures TrySettle(refused, 10, 0, 0).job == refused
  {
    refused := FailTask(job, 1, Message("refused"), WhileBudgetLasts, 10, 0).value;
    assert refused.tasks == map[1 := Refused(), 2 := Fresh()];
    NothingBlockedNothingDerived(refused.tasks, 0);
    assert KeepsOpen(refused.tasks[2], 0);
  }

  lemma FirstIsRefused() returns (c: Chain, job: JobState)
    ensures IsChain(TwoTasks(), c) && Shows(Now(c).world, 2, job) && PhaseOf(Now(c), 10).Idle? && PhaseOf(Now(c), 20).Idle?
    ensures job.tasks == map[1 := Refused(), 2 := Fresh()] && job.settings == SETTINGS
  {
    var taken, started := FirstIsTaken();
    var refused := RefusalStays(started);
    var ended := MoveFinish(TwoTasks(), taken, 10, started, 1, Sessions.Refused(Message("refused")), 0, refused, refused);
    assert PhaseOf(Now(ended), 20) == PhaseOf(Now(taken), 20);
    c, job := Saves(TwoTasks(), ended, 10, 1, started, SavingResult(refused, 1));
    assert PhaseOf(Now(c), 20) == PhaseOf(Now(ended), 20);
  }

  /**
   * Worker 10 refuses task 1. After a retry by another worker has completed the task, worker 10's
   * next result puts it back to failed, ready to be executed once more, and with it its first attempt.
   */
  lemma RefusedTaskComesBack() returns (moves: seq<(Id, Move)>, stored: JobState, final: JobState)
    ensures IsLegal(TwoTasks()) && ComesBack(moves, 1, 4 * SECOND)
    ensures Shows(Run(TwoTasks(), moves + [(10, Write(true))]).world, 6, final) && 1 in final.tasks && final.tasks[1].status.Failed?
    ensures Shows(Run(TwoTasks(), moves).world, 5, stored) && 1 in stored.tasks
    ensures stored.tasks[1].attempt == 2 && final.tasks[1].attempt == 1
  {
    TwoTasksAreLegal();
    var c, job := FirstIsRefused();
    moves, stored, final := BounceComesBack(c, 2, job, Refused(), SECOND, 2 * SECOND, 3 * SECOND, 4 * SECOND);
  }
}
