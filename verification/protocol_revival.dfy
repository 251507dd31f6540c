/**
 * A concrete run of the protocol in which a merged start revives a task the cascade had put out, over
 * a dependency the task does not accept.
 */
module ProtocolRevival {
  import opened Base
  import opened Tasks
  import opened Cascades
  import opened Settling
  import opened Jobs
  import opened JobObject
  import opened Planning
  import opened Protocol
  import opened ProtocolStretches
  import opened ProtocolWitnesses
  import Cycles
  import Sessions

  /** Task 2 survives a failure of task 1 but not its skip; task 3 is there to keep the iteration open. */
  function ThreeTasks(): JobDefinition {
    JobDefinition(7, [
      Definition(Tolerance(false, false), []),
      Definition(Tolerance(true, false), [Initial(7, 0)]),
      TaskDefinition(HOUR, 5 * HOUR, 5, 0, Tolerance(false, false), [])], SETTINGS)
  }

  function First(): Task { NewTask(20, None, ThreeTasks().initialTasks[0], []) }

  function Tolerant(): Task { NewTask(20, None, ThreeTasks().initialTasks[1], [1]) }

  function Third(): Task { NewTask(20, None, ThreeTasks().initialTasks[2], []) }

  function FirstRunning(): Task { Start(First(), 20, 0).value }

  function ThirdRunning(): Task { Start(Third(), 30, 0).value }

  lemma ThreeTasksAreLegal()
    ensures IsLegal(ThreeTasks())
  {
    ThreeTasksAreRanked(GraphOf(ThreeTasks().initialTasks));
  }

  lemma ThreeTasksAreRanked(g: Cycles.Graph)
    requires g == GraphOf(ThreeTasks().initialTasks)
    ensures Cycles.IsRank(g, [0, 1, 0])
  {
    assert g[0] == [] && g[1] == [0] && g[2] == [];
  }

  lemma {:induction false} OneReference(ids: seq<Id>)
    requires ids == [1, 2, 3]
    ensures ResolveInitial([Initial(7, 0)], ids) == Ok([1])
  {
    var refs: seq<TaskRef> := [Initial(7, 0)];
    assert refs[1..] == [];
    assert ResolveInitial(refs[1..], ids) == Ok([]);
    assert [ids[0]] + [] == [1];
  }

  lemma PlannedTriple(job: JobState)
    requires NewJob(ThreeTasks(), 0, [1, 2, 3], 20, 0) == Ok(job)
    ensures job.tasks == map[1 := First(), 2 := Tolerant(), 3 := Third()] && job.settings == SETTINGS
  {
    var defs, ids := ThreeTasks().initialTasks, [1, 2, 3];
    OneReference(ids);
    assert PlanTasks(defs, ids, 20, 0) == Ok(map[]);
    assert PlanTasks(defs, ids, 20, 1) == Ok(map[1 := First()]);
    assert PlanTasks(defs, ids, 20, 2) == Ok(map[1 := First(), 2 := Tolerant()]);
    assert PlanTasks(defs, ids, 20, 3) == Ok(map[1 := First(), 2 := Tolerant(), 3 := Third()]);
  }

  lemma TripleStaysAlive(a: Task, b: Task, d: Task, t: Moment)
    requires !CheckAvailability(a, t).ExpiredPastLifetime? && !CheckAvailability(b, t).ExpiredPastLifetime?
    requires !CheckAvailability(d, t).ExpiredPastLifetime?
    ensures var tasks: TaskMap := map[1 := a, 2 := b, 3 := d]; FailByLifetime(tasks, t) == tasks
  {
  }

  /** Worker 30 runs task 3 and worker 20 task 1. */
  lemma TwoAreRunning() returns (c: Chain, job: JobState)
    ensures IsLegal(ThreeTasks()) && IsChain(ThreeTasks(), c) && Shows(Now(c).world, 2, job)
    ensures PhaseOf(Now(c), 20) == Executing(job, 1) && PhaseOf(Now(c), 10).Idle?
    ensures job.tasks == map[1 := FirstRunning(), 2 := Tolerant(), 3 := ThirdRunning()]
    ensures job.status == JobRunning && job.settings == SETTINGS
  {
    ThreeTasksAreLegal();
    var planned := PlannedIsFromStorage(ThreeTasks(), [1, 2, 3], 20, 0);
    PlannedTriple(planned);
    var c0 := Begins(ThreeTasks(), [1, 2, 3], 20, 0, planned);
    assert PhaseOf(Now(c0), 10).Idle? && PhaseOf(Now(c0), 20).Idle? && PhaseOf(Now(c0), 30).Idle?;
    var c1, job1 := ThirdIsTaken(c0, planned.(version := Some(0)));
    c, job := FirstIsTakenToo(c1, job1);
  }

  lemma ThirdIsTaken(c: Chain, job: JobState) returns (c': Chain, job': JobState)
    requires IsChain(ThreeTasks(), c) && Shows(Now(c).world, 0, job) && job.settings == SETTINGS
    requires PhaseOf(Now(c), 10).Idle? && PhaseOf(Now(c), 20).Idle? && PhaseOf(Now(c), 30).Idle?
    requires job.tasks == map[1 := First(), 2 := Tolerant(), 3 := Third()]
    ensures IsChain(ThreeTasks(), c') && Shows(Now(c').world, 1, job') && job'.settings == SETTINGS
    ensures PhaseOf(Now(c'), 10).Idle? && PhaseOf(Now(c'), 20).Idle?
    ensures job'.tasks == map[1 := First(), 2 := Tolerant(), 3 := ThirdRunning()]
  {
    TripleStaysAlive(First(), Tolerant(), Third(), 0);
    c', job' := TakesUp(ThreeTasks(), c, 30, 0, job, 3, 0);
    assert PhaseOf(Now(c'), 10) == PhaseOf(Now(c), 10) && PhaseOf(Now(c'), 20) == PhaseOf(Now(c), 20);
  }

  lemma FirstIsTakenToo(c: Chain, job: JobState) returns (c': Chain, job': JobState)
    requires IsChain(ThreeTasks(), c) && Shows(Now(c).world, 1, job) && job.settings == SETTINGS
    requires PhaseOf(Now(c), 10).Idle? && PhaseOf(Now(c), 20).Idle?
    requires job.tasks == map[1 := First(), 2 := Tolerant(), 3 := ThirdRunning()]
    ensures IsChain(ThreeTasks(), c') && Shows(Now(c').world, 2, job') && job'.settings == SETTINGS && job'.status == JobRunning
    ensures PhaseOf(Now(c'), 20) == Executing(job', 1) && PhaseOf(Now(c'), 10).Idle?
    ensures job'.tasks == map[1 := FirstRunning(), 2 := Tolerant(), 3 := ThirdRunning()]
  {
    TripleStaysAlive(First(), Tolerant(), ThirdRunning(), 0);
    c', job' := TakesUp(ThreeTasks(), c, 20, 1, job, 1, 0);
    assert PhaseOf(Now(c'), 10) == PhaseOf(Now(c), 10);
  }

  // ----- Worker 10: past the lifetime of task 1, task 2 is released and started -----

  function FirstOutlived(): Task { FailedByLifetime(FirstRunning(), 6 * MINUTE) }

  function Released(): Task { Tolerant().(status := Todo) }

  function Revived(): Task { Start(Released(), 10, 6 * MINUTE).value }

  lemma FirstIsOutlived()
    ensures var failed := FailByLifetime(map[1 := FirstRunning(), 2 := Tolerant(), 3 := ThirdRunning()], 6 * MINUTE);
            && failed == map[1 := FirstOutlived(), 2 := Tolerant(), 3 := ThirdRunning()]
            && !AnyPickable(failed, 6 * MINUTE)
  {
  }

  lemma OutlivedReleasesTolerant()
    ensures Derived(map[1 := FirstOutlived(), 2 := Tolerant(), 3 := ThirdRunning()], 6 * MINUTE)
         == map[1 := FirstOutlived(), 2 := Released(), 3 := ThirdRunning()]
  {
    var failed := map[1 := FirstOutlived(), 2 := Tolerant(), 3 := ThirdRunning()];
    assert !Refuses(failed, Tolerant(), 1, 6 * MINUTE);
    assert BlameOf(failed, 2, 6 * MINUTE).None?;
    assert Generation(failed, 6 * MINUTE) == {};
    assert DependenciesSatisfied(failed, Tolerant(), 6 * MINUTE);
    assert UnblockSatisfied(failed, 6 * MINUTE) == map[1 := FirstOutlived(), 2 := Released(), 3 := ThirdRunning()];
  }

  lemma LookRevives(job: JobState) returns (started: JobState)
    requires job.tasks == map[1 := FirstRunning(), 2 := Tolerant(), 3 := ThirdRunning()] && job.status == JobRunning
    ensures AfterPick(job, 10, AllAt(6 * MINUTE), 2, 6 * MINUTE) == SavingStart(started, 2)
    ensures started == job.(tasks := map[1 := FirstOutlived(), 2 := Revived(), 3 := ThirdRunning()], updatedBy := 10)
  {
    FirstIsOutlived();
    OutlivedReleasesTolerant();
    var prepared := Prepared(job, 10, AllAt(6 * MINUTE)).value;
    var derived := map[1 := FirstOutlived(), 2 := Released(), 3 := ThirdRunning()];
    assert KeepsOpen(derived[3], 6 * MINUTE);
    assert TrySettle(prepared, 10, 6 * MINUTE, 6 * MINUTE) == Outcome(job.(tasks := derived), Ok(false));
    started := ReleasedStarts(job.(tasks := derived));
  }

  lemma ReleasedStarts(job: JobState) returns (started: JobState)
    requires job.tasks == map[1 := FirstOutlived(), 2 := Released(), 3 := ThirdRunning()]
    ensures AfterStart(job, 10, 2, 6 * MINUTE) == SavingStart(started, 2)
    ensures started == job.(tasks := map[1 := FirstOutlived(), 2 := Revived(), 3 := ThirdRunning()], updatedBy := 10)
    ensures CheckAvailability(job.tasks[2], 6 * MINUTE).Pickable?
  {
    started := StartTask(job, 2, 10, 6 * MINUTE).value;
    assert job.tasks[2 := Revived()] == map[1 := FirstOutlived(), 2 := Revived(), 3 := ThirdRunning()];
  }

  // ----- Worker 20: task 1 was skipped in time, and task 2 is put out -----

  function FirstSkipped(): Task {
    FirstRunning().(reason := Message("pointless"), status := Skipped(ExecutorDecision), completedAt := Some(4 * MINUTE))
  }

  function TolerantPutOut(): Task { PutOut(Tolerant(), Blame(SkippedDependency, 1), 4 * MINUTE) }

  lemma SkipPutsOut()
    ensures Derived(map[1 := FirstSkipped(), 2 := Tolerant(), 3 := ThirdRunning()], 4 * MINUTE)
         == map[1 := FirstSkipped(), 2 := TolerantPutOut(), 3 := ThirdRunning()]
  {
    var tasks: TaskMap := map[1 := FirstSkipped(), 2 := Tolerant(), 3 := ThirdRunning()];
    var after: TaskMap := map[1 := FirstSkipped(), 2 := TolerantPutOut(), 3 := ThirdRunning()];
    assert Tolerant().dependsOn[..0] == [];
    assert BlameOf(tasks, 2, 4 * MINUTE) == Some(Blame(SkippedDependency, 1));
    assert Generation(tasks, 4 * MINUTE) == {2};
    assert CascadeStep(tasks, 4 * MINUTE) == after;
    assert Generation(after, 4 * MINUTE) == {};
    assert Cascade(tasks, 4 * MINUTE) == after;
    assert UnblockSatisfied(after, 4 * MINUTE) == after;
  }

  lemma SkipSettles(job: JobState) returns (applied: JobState, settled: JobState)
    requires job.tasks == map[1 := FirstRunning(), 2 := Tolerant(), 3 := ThirdRunning()] && job.status == JobRunning
    ensures Sessions.ApplyOutcome(job, 1, 20, Sessions.SkippedBranch(Message("pointless")), 4 * MINUTE, 4 * MINUTE) == Ok(applied)
    ensures TrySettle(applied, 20, 4 * MINUTE, 4 * MINUTE).job == settled
    ensures settled == job.(tasks := map[1 := FirstSkipped(), 2 := TolerantPutOut(), 3 := ThirdRunning()])
  {
    applied := SkipTaskByExecutor(job, 1, Message("pointless"), 20, 4 * MINUTE).value;
    assert applied.tasks == map[1 := FirstSkipped(), 2 := Tolerant(), 3 := ThirdRunning()];
    SkipPutsOut();
    settled := job.(tasks := map[1 := FirstSkipped(), 2 := TolerantPutOut(), 3 := ThirdRunning()]);
    assert KeepsOpen(settled.tasks[3], 4 * MINUTE);
  }

  // ----- The merge -----

  lemma MergeRevives(stored: JobState, ours: JobState) returns (merged: JobState)
    requires stored.id == ours.id && stored.status == ours.status == JobRunning
    requires stored.tasks == map[1 := FirstSkipped(), 2 := TolerantPutOut(), 3 := ThirdRunning()]
    requires ours.tasks == map[1 := FirstOutlived(), 2 := Revived(), 3 := ThirdRunning()]
    ensures MergePicked(stored, ours, 10, 2, 6 * MINUTE, 6 * MINUTE) == Ok(merged)
    ensures merged.tasks == map[1 := FirstSkipped(), 2 := Revived(), 3 := ThirdRunning()]
    ensures merged.id == stored.id && merged.iterNum == stored.iterNum && merged.version == stored.version && merged.status == JobRunning
  {
    TripleStaysAlive(FirstSkipped(), TolerantPutOut(), ThirdRunning(), 6 * MINUTE);
    assert Generation(stored.tasks, 6 * MINUTE) == {};
    merged := MergePicked(stored, ours, 10, 2, 6 * MINUTE, 6 * MINUTE).value;
  }

  /** Worker 20 has skipped task 1 and not stored it when worker 10 starts task 2 from the same state. */
  lemma BothCopiesMade() returns (c: Chain, job: JobState, settled: JobState, ours: JobState)
    ensures IsLegal(ThreeTasks()) && IsChain(ThreeTasks(), c) && Shows(Now(c).world, 2, job)
    ensures PhaseOf(Now(c), 20) == SavingResult(settled, 1) && PhaseOf(Now(c), 10) == SavingStart(ours, 2)
    ensures job.status == JobRunning
    ensures settled == job.(tasks := map[1 := FirstSkipped(), 2 := TolerantPutOut(), 3 := ThirdRunning()])
    ensures ours == job.(tasks := map[1 := FirstOutlived(), 2 := Revived(), 3 := ThirdRunning()], updatedBy := 10)
  {
    var c1: Chain;
    c1, job := TwoAreRunning();
    var c2: Chain;
    c2, settled := SkipIsRecorded(c1, job);
    var c3 := Reads(ThreeTasks(), c2, 10, 2, job);
    ours := LookRevives(job);
    c := MovePick(ThreeTasks(), c3, 10, job, AllAt(6 * MINUTE), 2, 6 * MINUTE, SavingStart(ours, 2));
  }

  /** Worker 20's write lands first. */
  lemma SkipIsStored() returns (c: Chain, stored: JobState, ours: JobState)
    ensures IsLegal(ThreeTasks()) && IsChain(ThreeTasks(), c) && Shows(Now(c).world, 3, stored)
    ensures PhaseOf(Now(c), 10) == SavingStart(ours, 2) && ours.version == Some(2) && ours.iterNum == 1 && ours.id == 0
    ensures ours.tasks == map[1 := FirstOutlived(), 2 := Revived(), 3 := ThirdRunning()] && ours.status == JobRunning
    ensures stored.tasks == map[1 := FirstSkipped(), 2 := TolerantPutOut(), 3 := ThirdRunning()] && stored.status == JobRunning
  {
    var made, job, settled: JobState;
    made, job, settled, ours := BothCopiesMade();
    c, stored := Saves(ThreeTasks(), made, 20, 2, job, SavingResult(settled, 1));
    assert PhaseOf(Now(c), 10) == PhaseOf(Now(made), 10);
  }

  lemma SkipIsRecorded(c: Chain, job: JobState) returns (c': Chain, settled: JobState)
    requires IsChain(ThreeTasks(), c) && PhaseOf(Now(c), 20) == Executing(job, 1)
    requires job.tasks == map[1 := FirstRunning(), 2 := Tolerant(), 3 := ThirdRunning()] && job.status == JobRunning
    ensures settled == job.(tasks := map[1 := FirstSkipped(), 2 := TolerantPutOut(), 3 := ThirdRunning()])
    ensures IsChain(ThreeTasks(), c') && Now(c') == With(Now(c), 20, SavingResult(settled, 1))
  {
    var applied: JobState;
    applied, settled := SkipSettles(job);
    c' := MoveFinish(ThreeTasks(), c, 20, job, 1, Sessions.SkippedBranch(Message("pointless")), 4 * MINUTE, applied, settled);
  }

  /**
   * Worker 20 skips task 1 in time, which puts task 2 out, and is slow to store it. Worker 10 meanwhile
   * sees task 1 outlive its lifetime, which task 2 survives, and starts task 2. Worker 20's write lands
   * first; worker 10's start is merged all the same and revives task 2 over the skipped dependency.
   */
  lemma PutOutTaskIsRevived() returns (moves: seq<(Id, Move)>)
    ensures IsLegal(ThreeTasks())
    ensures var before, after := Run(ThreeTasks(), moves).world.store, Run(ThreeTasks(), moves + [(10, Write(true))]).world.store;
            && 1 in before && 2 in before[1].job.tasks && before[1].job.tasks[2].status == Skipped(SkippedDependency)
            && 1 in after && 2 in after[1].job.tasks && after[1].job.tasks[2].status.Started?
            && !DependenciesSatisfied(after[1].job.tasks, after[1].job.tasks[2], 6 * MINUTE)
  {
    var last, c, stored, final := StartIsMerged();
    ChainIsRun(ThreeTasks(), last);
    ChainIsRun(ThreeTasks(), c);
    moves := last.moves;
    assert 1 in final.tasks[2].dependsOn;
  }

  lemma StartIsMerged() returns (last: Chain, c: Chain, stored: JobState, final: JobState)
    ensures IsLegal(ThreeTasks()) && IsChain(ThreeTasks(), last) && IsChain(ThreeTasks(), c)
    ensures c.moves == last.moves + [(10, Write(true))]
    ensures Shows(Now(last).world, 3, stored) && Shows(Now(c).world, 4, final)
    ensures stored.tasks == map[1 := FirstSkipped(), 2 := TolerantPutOut(), 3 := ThirdRunning()]
    ensures final.tasks == map[1 := FirstSkipped(), 2 := Revived(), 3 := ThirdRunning()]
  {
    var made, ours: JobState;
    made, stored, ours := SkipIsStored();
    var merged := MergeRevives(stored, ours);
    last := MoveMerge(ThreeTasks(), made, 10, SavingStart(ours, 2), 3, stored, 6 * MINUTE, SavingStart(merged, 2));
    c, final := Saves(ThreeTasks(), last, 10, 3, stored, SavingStart(merged, 2));
  }
}
