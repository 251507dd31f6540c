/**
 * What lost answers cost: a worker whose writes land unanswered merges onto its own write, time and
 * again, and gives up a close it has stored itself.
 */
module ProtocolAnswers {
  import opened Base
  import opened Jobs
  import opened Planning
  import opened Protocol
  import opened ProtocolInvariant
  import opened ProtocolOwnership
  import opened ProtocolRuns
  import opened ProtocolOverrides
  import opened ProtocolStretches
  import opened ProtocolWitnesses

  lemma {:induction false} RunMore(def: JobDefinition, moves: seq<(Id, Move)>, worker: Id, move: Move)
    requires IsLegal(def)
    ensures Run(def, moves + [(worker, move)]) == Apply(def, Run(def, moves), worker, move)
  {
    var longer := moves + [(worker, move)];
    assert longer[..|longer| - 1] == moves;
  }

  /** A copy that is being saved, and may be as the store stands. */
  ghost predicate MaySave(s: System, worker: Id) {
    IsSaving(PhaseOf(s, worker)) && IsWriteAllowed(s.world, PhaseOf(s, worker).job)
  }

  /** What a worker meets once its write has landed and the answer is lost: its own state, and a conflict. */
  lemma MeetsItsOwnWrite(world: World, n: nat, worker: Id, phase: Phase)
    requires WorldOk(world, n) && PhaseOk(world, worker, phase) && IsSaving(phase) && IsWriteAllowed(world, phase.job)
    ensures var after := Written(world, phase.job);
            && Newest(after.store) == phase.job.iterNum && phase.job.iterNum in after.store
            && after.store[phase.job.iterNum].job == Persisted(phase.job.(version := Some(world.nextVersion)))
            && !IsWriteAllowed(after, phase.job)
  {
    AllowedWriteIsWritable(world, n, worker, phase);
    WriteKeepsWorld(world, n, phase.job);
    LastIsNewest(Written(world, phase.job).store, phase.job.iterNum);
  }

  /** The start of a task, merged onto itself. */
  lemma StartMergesOntoItself(job: JobState, version: nat, worker: Id, task: Id, at: Moment)
    requires task in job.tasks && job.tasks[task].status.Started? && job.tasks[task].owner == Some(worker)
    requires job.status.JobRunning?
    ensures MergePicked(Persisted(job.(version := Some(version))), job, worker, task, at, at).Ok?
    ensures var merged := MergePicked(Persisted(job.(version := Some(version))), job, worker, task, at, at).value;
            merged.version == Some(version) && merged.iterNum == job.iterNum
  {
  }

  lemma StartIsToBeWrittenAgain(world: World, n: nat, worker: Id, phase: Phase, at: Moment)
    requires WorldOk(world, n) && PhaseOk(world, worker, phase) && PhaseOwned(world, worker, phase)
    requires phase.SavingStart? && IsWriteAllowed(world, phase.job)
    ensures var after := Written(world, phase.job);
            var merged := ActMerge(after, worker, phase, at, at);
            && merged.0 == after && merged.1.SavingStart? && merged.1.task == phase.task
            && IsWriteAllowed(after, merged.1.job)
  {
    assert StandsAt(worker, phase, world.written[phase.job.version.value].tasks, phase.job.tasks, phase.task);
    MeetsItsOwnWrite(world, n, worker, phase);
    StartMergesOntoItself(phase.job, world.nextVersion, worker, phase.task, at);
  }

  lemma CloseIsGivenUp(world: World, n: nat, worker: Id, phase: Phase, at: Moment)
    requires WorldOk(world, n) && PhaseOk(world, worker, phase)
    requires phase.SavingResult? && IsProcessed(phase.job) && IsWriteAllowed(world, phase.job)
    ensures var after := Written(world, phase.job);
            ActMerge(after, worker, phase, at, at) == (after, Idle)
  {
    MeetsItsOwnWrite(world, n, worker, phase);
  }

  /** The two moves of a lost answer. */
  function LostAnswer(worker: Id, at: Moment): seq<(Id, Move)> {
    [(worker, Write(false)), (worker, Merge(at, at))]
  }

  lemma StepsThroughLostAnswer(def: JobDefinition, s: System, worker: Id, at: Moment)
    requires IsLegal(def) && MaySave(s, worker)
    ensures var phase := PhaseOf(s, worker);
            var s' := Apply(def, Apply(def, s, worker, Write(false)), worker, Merge(at, at));
            (s'.world, PhaseOf(s', worker)) == ActMerge(Written(s.world, phase.job), worker, phase, at, at)
  {
    var phase, landed := PhaseOf(s, worker), Apply(def, s, worker, Write(false));
    assert landed.world == Written(s.world, phase.job) && PhaseOf(landed, worker) == phase;
  }

  lemma {:induction false} RunsThroughLostAnswer(def: JobDefinition, moves: seq<(Id, Move)>, worker: Id, at: Moment)
    requires IsLegal(def) && MaySave(Run(def, moves), worker)
    ensures var s, s' := Run(def, moves), Run(def, moves + LostAnswer(worker, at));
            var phase := PhaseOf(s, worker);
            (s'.world, PhaseOf(s', worker)) == ActMerge(Written(s.world, phase.job), worker, phase, at, at)
  {
    RunMore(def, moves, worker, Write(false));
    RunMore(def, moves + [(worker, Write(false))], worker, Merge(at, at));
    assert moves + LostAnswer(worker, at) == moves + [(worker, Write(false))] + [(worker, Merge(at, at))];
    StepsThroughLostAnswer(def, Run(def, moves), worker, at);
  }

  /** A start whose write lands unanswered is merged onto that write, and is to be written again. */
  lemma {:induction false} LostAnswerCostsAnAttempt(def: JobDefinition, moves: seq<(Id, Move)>, worker: Id, at: Moment,
                                                    longer: seq<(Id, Move)>)
    requires IsLegal(def) && PhaseOf(Run(def, moves), worker).SavingStart? && MaySave(Run(def, moves), worker)
    requires longer == moves + LostAnswer(worker, at)
    ensures var s' := Run(def, longer);
            && PhaseOf(s', worker).SavingStart? && PhaseOf(s', worker).task == PhaseOf(Run(def, moves), worker).task
            && MaySave(s', worker)
  {
    var s := Run(def, moves);
    var n := RunKeepsSystem(def, moves);
    RunStaysOwned(def, moves);
    assert WorkerOk(s, worker) && OwnedBy(s, worker);
    StartIsToBeWrittenAgain(s.world, n, worker, PhaseOf(s, worker), at);
    RunsThroughLostAnswer(def, moves, worker, at);
  }

  /** `k` writes of a worker that land unanswered, each followed by the merge. */
  function Unanswered(worker: Id, at: Moment, k: nat): seq<(Id, Move)> {
    if k == 0 then [] else Unanswered(worker, at, k - 1) + LostAnswer(worker, at)
  }

  /**
   * With no other worker in sight, lost answers spend any budget: however many of its writes have
   * landed unanswered, a start is still to be written.
   */
  lemma {:induction false} LostAnswersSpendAnyBudget(def: JobDefinition, moves: seq<(Id, Move)>, worker: Id, at: Moment, k: nat,
                                                     longer: seq<(Id, Move)>)
    requires IsLegal(def) && PhaseOf(Run(def, moves), worker).SavingStart? && MaySave(Run(def, moves), worker)
    requires longer == moves + Unanswered(worker, at, k)
    ensures PhaseOf(Run(def, longer), worker).SavingStart? && MaySave(Run(def, longer), worker)
  {
    if k == 0 {
      assert longer == moves;
    } else {
      var before := moves + Unanswered(worker, at, k - 1);
      assert longer == before + LostAnswer(worker, at);
      LostAnswersSpendAnyBudget(def, moves, worker, at, k - 1, before);
      LostAnswerCostsAnAttempt(def, before, worker, at, longer);
    }
  }

  /**
   * A result that closes its iteration and lands unanswered is given up as one that came too late,
   * although it is what closed the iteration.
   */
  lemma {:induction false} UnansweredCloseIsDropped(def: JobDefinition, moves: seq<(Id, Move)>, worker: Id, at: Moment)
    requires IsLegal(def) && PhaseOf(Run(def, moves), worker).SavingResult? && MaySave(Run(def, moves), worker)
    requires IsProcessed(PhaseOf(Run(def, moves), worker).job)
    ensures var s, s' := Run(def, moves), Run(def, moves + LostAnswer(worker, at));
            var job := PhaseOf(s, worker).job;
            && PhaseOf(s', worker).Idle? && job.iterNum in s'.world.store
            && s'.world.store[job.iterNum].job == Persisted(job.(version := Some(s.world.nextVersion)))
            && IsProcessed(s'.world.store[job.iterNum].job)
  {
    var s := Run(def, moves);
    var n := RunKeepsSystem(def, moves);
    assert WorkerOk(s, worker);
    CloseIsGivenUp(s.world, n, worker, PhaseOf(s, worker), at);
    RunsThroughLostAnswer(def, moves, worker, at);
  }

  lemma {:induction false} UnansweredIsOwn(worker: Id, at: Moment, k: nat)
    ensures OnlyBy(worker, Unanswered(worker, at, k))
  {
    if k > 0 {
      UnansweredIsOwn(worker, at, k - 1);
    }
  }

  /** For every budget, a whole run of one worker alone that its lost answers have used up. */
  lemma ALoneWorkerRunsOut(k: nat) returns (moves: seq<(Id, Move)>)
    ensures IsLegal(TwoTasks())
    ensures OnlyBy(10, moves + Unanswered(10, 0, k))
    ensures var s := Run(TwoTasks(), moves + Unanswered(10, 0, k));
            PhaseOf(s, 10).SavingStart? && MaySave(s, 10)
  {
    TwoTasksAreLegal();
    moves := LoneStart();
    LostAnswersSpendAnyBudget(TwoTasks(), moves, 10, 0, k, moves + Unanswered(10, 0, k));
    UnansweredIsOwn(10, 0, k);
  }

  lemma LoneStart() returns (moves: seq<(Id, Move)>)
    ensures IsLegal(TwoTasks()) && PhaseOf(Run(TwoTasks(), moves), 10).SavingStart? && MaySave(Run(TwoTasks(), moves), 10)
    ensures OnlyBy(10, moves)
  {
    TwoTasksAreLegal();
    var planned := PlannedIsFromStorage(TwoTasks(), [1, 2], 10, 0);
    PlannedPair(planned);
    var c0 := Begins(TwoTasks(), [1, 2], 10, 0, planned);
    PairStaysAlive(Fresh(), Fresh(), 0);
    var job := planned.(version := Some(0));
    var c1 := Reads(TwoTasks(), c0, 10, 0, job);
    var started := PickStarts(job, 10, 1, 0);
    var c2 := MovePick(TwoTasks(), c1, 10, job, AllAt(0), 1, 0, SavingStart(started, 1));
    ChainIsRun(TwoTasks(), c2);
    moves := c2.moves;
  }
}
