/**
 * Safety of every run of the protocol: any number of workers, stopping anywhere, with writes that
 * succeed unacknowledged and no assumption about how their clocks relate.
 */
module ProtocolSafety {
  import opened Base
  import opened Jobs
  import opened JobObject
  import opened Planning
  import opened Protocol
  import opened ProtocolInvariant
  import opened ProtocolSteps
  import opened ProtocolJobs
  import Sessions

  // ----- The shape -----

  lemma GraphBelongs(births: Births, job: JobState)
    requires GraphOk(births, job.iterNum, job.tasks)
    ensures Belongs(births, job)
  {
    forall x | x in job.tasks ensures x in births && births[x].iterNum == job.iterNum {
      assert IsBorn(births, job.iterNum, job.tasks, x);
    }
  }

  /** What a step to `after` keeps: the shape, with `n'` iterations stored, and every closed one untouched. */
  ghost predicate KeepsShape(world: World, n': nat, worker: Id, after: (World, Phase)) {
    WorldOk(after.0, n') && PhaseOk(after.0, worker, after.1) && Extends(world, after.0)
  }

  /** A step that touches no more than the worker's own copy. */
  lemma StandingStill(world: World, n: nat, worker: Id, phase: Phase)
    requires WorldOk(world, n) && PhaseOk(world, worker, phase)
    ensures KeepsShape(world, n, worker, (world, phase))
  {
  }

  lemma PlannedBelongs(births: Births, def: JobDefinition, jobId: Id, ids: seq<Id>, worker: Id, now: Moment, iterNum: nat)
    requires IsLegal(def) && |ids| == |def.initialTasks| && Distinct(ids)
    requires forall i :: 0 <= i < |ids| ==> ids[i] !in births
    ensures NewJob(def, jobId, ids, worker, now).Ok?
    ensures var job := NewJob(def, jobId, ids, worker, now).value.(iterNum := iterNum);
            && Belongs(births + BirthsOf(def, ids, iterNum), job) && NoneClaimed(job) && !IsProcessed(job) && job.version.None?
    ensures BirthsExtend(births, births + BirthsOf(def, ids, iterNum))
  {
    PlannedJobIsOk(births, def, jobId, ids, worker, now, iterNum);
    GraphBelongs(births + BirthsOf(def, ids, iterNum), NewJob(def, jobId, ids, worker, now).value.(iterNum := iterNum));
  }

  lemma MintedIterationKeepsShape(world: World, n: nat, births: Births, job: JobState, worker: Id)
    requires WorldOk(world, n) && BirthsExtend(world.births, births)
    requires Belongs(births, job) && NoneClaimed(job) && !IsProcessed(job) && job.version.None? && 1 <= job.iterNum
    requires 1 < job.iterNum ==> job.iterNum - 1 in world.store && IsProcessed(world.store[job.iterNum - 1].job)
    ensures KeepsShape(world, n, worker, (world.(births := births), SavingIteration(job)))
  {
    MintingKeepsWorld(world, n, births);
  }

  /** Planning an iteration mints identifiers and leaves the store alone. */
  lemma PlanningKeepsShape(def: JobDefinition, world: World, n: nat, jobId: Id, ids: seq<Id>, worker: Id, now: Moment, iterNum: nat)
    requires IsLegal(def) && WorldOk(world, n) && |ids| == |def.initialTasks| && AreFresh(world, ids)
    requires 1 <= iterNum
    requires 1 < iterNum ==> iterNum - 1 in world.store && IsProcessed(world.store[iterNum - 1].job)
    ensures NewJob(def, jobId, ids, worker, now).Ok?
    ensures KeepsShape(world, n, worker,
                       (world.(births := world.births + BirthsOf(def, ids, iterNum)),
                        SavingIteration(NewJob(def, jobId, ids, worker, now).value.(iterNum := iterNum))))
  {
    var births := world.births + BirthsOf(def, ids, iterNum);
    PlannedBelongs(world.births, def, jobId, ids, worker, now, iterNum);
    MintedIterationKeepsShape(world, n, births, NewJob(def, jobId, ids, worker, now).value.(iterNum := iterNum), worker);
  }

  lemma CreateKeepsShape(def: JobDefinition, world: World, n: nat, worker: Id, phase: Phase, jobId: Id, ids: seq<Id>, now: Moment)
    requires IsLegal(def) && WorldOk(world, n) && PhaseOk(world, worker, phase)
    ensures KeepsShape(world, n, worker, ActCreate(def, world, worker, phase, jobId, ids, now))
  {
    if |ids| == |def.initialTasks| && AreFresh(world, ids) {
      PlanningKeepsShape(def, world, n, jobId, ids, worker, now, 1);
    }
  }

  /** A closed state once written is stored still, so the iteration behind it may be created. */
  lemma ClosedCopyStands(world: World, n: nat, job: JobState)
    requires WorldOk(world, n) && IsLoaded(world, job) && IsProcessed(job)
    ensures 1 <= job.iterNum && job.iterNum in world.store && IsProcessed(world.store[job.iterNum].job)
  {
    assert WrittenOk(world, job.version.value);
  }

  lemma AdvanceKeepsShape(def: JobDefinition, world: World, n: nat, worker: Id, phase: Phase, ids: seq<Id>, now: Moment)
    requires IsLegal(def) && WorldOk(world, n) && PhaseOk(world, worker, phase)
    ensures KeepsShape(world, n, worker, ActAdvance(def, world, worker, phase, ids, now))
  {
    if phase.Advancing? && IsProcessed(phase.job) && |ids| == |def.initialTasks| && AreFresh(world, ids)
       && NextIterationOf(phase.job, def, ids, worker, now).Ok? {
      ClosedCopyStands(world, n, phase.job);
      NextIterationIsPlanned(def, worker, phase.job, ids, now);
      PlanningKeepsShape(def, world, n, phase.job.id, ids, worker, now, phase.job.iterNum + 1);
    }
  }

  lemma StartConflictKeepsShape(world: World, n: nat, worker: Id, phase: Phase, now: Moment, later: Moment)
    requires WorldOk(world, n) && PhaseOk(world, worker, phase) && phase.SavingStart? && n in world.store
    ensures PhaseOk(world, worker, AfterConflict(phase, worker, world.store[n].job, now, later))
  {
    if MergePicked(world.store[n].job, phase.job, worker, phase.task, now, later).Ok? {
      PickedMergeKeepsPhase(world, n, worker, phase.job, phase.task, now, later);
    }
  }

  /** A result is given up, or carried over and settled. */
  lemma ResultConflictSettles(phase: Phase, worker: Id, saved: JobState, now: Moment, later: Moment)
    requires phase.SavingResult?
    ensures var after, carried := AfterConflict(phase, worker, saved, now, later), CarriedOver(saved, phase.job, worker, now);
            || after == Idle
            || (&& phase.task in saved.tasks && !IsProcessed(saved)
                && after == SavingResult(TrySettle(carried, worker, now, later).job, phase.task))
  {
    ProcessedMergeIsSettledCarry(saved, phase.job, worker, phase.task, now, later);
  }

  lemma ConflictKeepsShape(world: World, n: nat, worker: Id, phase: Phase, now: Moment, later: Moment)
    requires WorldOk(world, n) && PhaseOk(world, worker, phase) && IsSaving(phase) && n in world.store
    ensures PhaseOk(world, worker, AfterConflict(phase, worker, world.store[n].job, now, later))
  {
    NewestIsLoaded(world, n);
    if phase.SavingStart? {
      StartConflictKeepsShape(world, n, worker, phase, now, later);
    } else if phase.SavingResult? {
      ResultConflictSettles(phase, worker, world.store[n].job, now, later);
      if AfterConflict(phase, worker, world.store[n].job, now, later) != Idle {
        ProcessedMergeKeepsPhase(world, n, worker, phase.job, phase.task, now, later);
      }
    }
  }

  /** The number of stored iterations after a step. */
  function Count(world: World, n: nat, phase: Phase, move: Move): nat {
    if move.Write? && IsSaving(phase) && IsWriteAllowed(world, phase.job) then phase.job.iterNum else n
  }

  lemma WriteKeepsShape(world: World, n: nat, worker: Id, phase: Phase, isAcknowledged: bool)
    requires WorldOk(world, n) && PhaseOk(world, worker, phase)
    ensures var n' := Count(world, n, phase, Write(isAcknowledged));
            n <= n' <= n + 1 && KeepsShape(world, n', worker, ActWrite(world, phase, isAcknowledged))
  {
    if IsSaving(phase) && IsWriteAllowed(world, phase.job) {
      AllowedWriteIsWritable(world, n, worker, phase);
      WriteKeepsWorld(world, n, phase.job);
      AcknowledgedPhaseIsOk(world, worker, phase);
      PhaseStays(world, Written(world, phase.job), worker, phase);
    }
  }

  lemma MergeKeepsShape(world: World, n: nat, worker: Id, phase: Phase, now: Moment, later: Moment)
    requires WorldOk(world, n) && PhaseOk(world, worker, phase)
    ensures KeepsShape(world, n, worker, ActMerge(world, worker, phase, now, later))
  {
    LastIsNewest(world.store, n);
    if IsSaving(phase) && n > 0 {
      ConflictKeepsShape(world, n, worker, phase, now, later);
    }
  }

  lemma CallKeepsShape(world: World, n: nat, worker: Id, phase: Phase, call: Sessions.Call)
    requires WorldOk(world, n) && PhaseOk(world, worker, phase)
    ensures KeepsShape(world, n, worker, ActCall(world, worker, phase, call))
  {
    if phase.Executing? && (call.AddCall? ==> call.minted !in world.births) {
      var performed := Sessions.Perform(phase.job, call, worker, phase.task);
      if performed.Ok? {
        CallKeepsPhase(world, worker, phase.job, phase.task, call);
        MintingKeepsWorld(world, n, Registered(world, call, performed.value).births);
      }
    }
  }

  lemma LookKeepsShape(world: World, n: nat, worker: Id, phase: Phase, r: PickReadings, choice: Id, startAt: Moment)
    requires WorldOk(world, n) && PhaseOk(world, worker, phase)
    ensures KeepsShape(world, n, worker, ActRead(world, phase))
    ensures KeepsShape(world, n, worker, ActPick(world, worker, phase, r, choice, startAt))
  {
    LastIsNewest(world.store, n);
    if n > 0 {
      NewestIsLoaded(world, n);
    }
    if phase.Open? {
      assert WrittenOk(world, phase.job.version.value);
      PickKeepsPhase(world, worker, phase.job, r, choice, startAt);
    }
  }

  lemma FinishKeepsShape(world: World, n: nat, worker: Id, phase: Phase, outcome: Sessions.ExecutorOutcome,
                         now: Moment, later: Moment, settleAt: Moment, closedAt: Moment)
    requires WorldOk(world, n) && PhaseOk(world, worker, phase)
    ensures KeepsShape(world, n, worker, ActFinish(world, worker, phase, outcome, now, later, settleAt, closedAt))
  {
    if !phase.Executing? || settleAt > closedAt {
      StandingStill(world, n, worker, phase);
    } else if Sessions.ApplyOutcome(phase.job, phase.task, worker, outcome, now, later).Err? {
      StandingStill(world, n, worker, Idle);
    } else {
      FinishKeepsPhase(world, worker, phase.job, phase.task, outcome, now, later, settleAt, closedAt);
      var applied := Sessions.ApplyOutcome(phase.job, phase.task, worker, outcome, now, later).value;
      StandingStill(world, n, worker, SavingResult(TrySettle(applied, worker, settleAt, closedAt).job, phase.task));
    }
  }

  lemma ActKeepsShape(def: JobDefinition, world: World, n: nat, worker: Id, phase: Phase, move: Move)
    requires IsLegal(def) && WorldOk(world, n) && PhaseOk(world, worker, phase)
    ensures n <= Count(world, n, phase, move) <= n + 1
    ensures KeepsShape(world, Count(world, n, phase, move), worker, Act(def, world, worker, phase, move))
  {
    match move
    case Create(jobId, ids, now) => CreateKeepsShape(def, world, n, worker, phase, jobId, ids, now);
    case Read => LookKeepsShape(world, n, worker, phase, PickReadings(0, 0, 0, 0, 0, 0, 0), 0, 0);
    case Advance(ids, now) => AdvanceKeepsShape(def, world, n, worker, phase, ids, now);
    case Pick(r, choice, startAt) => LookKeepsShape(world, n, worker, phase, r, choice, startAt);
    case Write(isAcknowledged) => WriteKeepsShape(world, n, worker, phase, isAcknowledged);
    case Merge(now, later) => MergeKeepsShape(world, n, worker, phase, now, later);
    case Call(call) => CallKeepsShape(world, n, worker, phase, call);
    case Finish(outcome, now, later, settleAt, closedAt) =>
      FinishKeepsShape(world, n, worker, phase, outcome, now, later, settleAt, closedAt);
    case Stop => StandingStill(world, n, worker, Idle);
  }
}
