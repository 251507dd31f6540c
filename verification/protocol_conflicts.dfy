/**
 * What a save of any reachable copy can end with, by what is stored: one job for the whole store, and
 * no error but for an iteration that is over.
 */
module ProtocolConflicts {
  import opened Base
  import opened Tasks
  import opened Jobs
  import opened JobLaws
  import opened JobObject
  import opened Planning
  import opened Protocol
  import opened ProtocolInvariant
  import opened ProtocolRuns
  import opened ProtocolSchedule
  import opened MergeLaws
  import Sessions
  import Saving

  // ----- One job -----

  /** Every stored iteration is one of job `id`. */
  ghost predicate IsStoreOf(world: World, id: Id) {
    forall k {:trigger world.store[k]} :: k in world.store ==> world.store[k].job.id == id
  }

  ghost predicate IsOneJob(world: World) {
    exists id :: IsStoreOf(world, id)
  }

  /** The worker is idle, about to create the first iteration, or holds a copy of the stored job. */
  ghost predicate HoldsStoredJob(world: World, phase: Phase) {
    phase.Idle? || (phase.SavingIteration? && phase.job.iterNum == 1) || IsStoreOf(world, phase.job.id)
  }

  /** `after` is idle, a first iteration, or of the job of `phase` or of the stored one. */
  ghost predicate KeepsJob(world: World, phase: Phase, after: Phase) {
    || after.Idle?
    || (after.SavingIteration? && after.job.iterNum == 1)
    || (!phase.Idle? && after.SavingIteration? == phase.SavingIteration? && after.job.iterNum == phase.job.iterNum
        && after.job.id == phase.job.id)
    || (!phase.Idle? && !phase.SavingIteration? && after.job.id == phase.job.id)
    || (Newest(world.store) in world.store && after.job.id == world.store[Newest(world.store)].job.id)
  }

  lemma KeptJobIsStored(world: World, phase: Phase, after: Phase)
    requires IsOneJob(world) && HoldsStoredJob(world, phase) && KeepsJob(world, phase, after)
    ensures HoldsStoredJob(world, after)
  {
  }

  // ----- The steps -----

  lemma PlanningKeepsJob(def: JobDefinition, world: World, worker: Id, phase: Phase, jobId: Id, ids: seq<Id>, now: Moment)
    requires IsLegal(def)
    ensures KeepsJob(world, phase, ActCreate(def, world, worker, phase, jobId, ids, now).1)
    ensures KeepsJob(world, phase, ActAdvance(def, world, worker, phase, ids, now).1)
  {
  }

  lemma MergingKeepsJob(world: World, worker: Id, phase: Phase, now: Moment, later: Moment)
    ensures KeepsJob(world, phase, ActMerge(world, worker, phase, now, later).1)
  {
    if IsSaving(phase) && !IsWriteAllowed(world, phase.job) && Newest(world.store) in world.store && now <= later {
      ConflictKeepsCalendar(phase, worker, world.store[Newest(world.store)].job, now, later);
    }
  }

  lemma PickingKeepsJob(world: World, worker: Id, phase: Phase, r: PickReadings, choice: Id, startAt: Moment)
    ensures KeepsJob(world, phase, ActPick(world, worker, phase, r, choice, startAt).1)
  {
    if phase.Open? {
      PickKeepsCalendar(phase.job, worker, r, choice, startAt);
    }
  }

  lemma ExecutionKeepsJob(world: World, worker: Id, phase: Phase, call: Sessions.Call,
                          outcome: Sessions.ExecutorOutcome, now: Moment, later: Moment, settleAt: Moment, closedAt: Moment)
    ensures KeepsJob(world, phase, ActCall(world, worker, phase, call).1)
    ensures KeepsJob(world, phase, ActFinish(world, worker, phase, outcome, now, later, settleAt, closedAt).1)
  {
    if phase.Executing? {
      ExecutionKeepsCalendar(phase.job, worker, phase.task, call, outcome, now, later);
      var applied := Sessions.ApplyOutcome(phase.job, phase.task, worker, outcome, now, later);
      if applied.Ok? {
        SettlingKeepsCalendar(applied.value, worker, settleAt, closedAt);
      }
    }
  }

  lemma MoveKeepsJob(def: JobDefinition, world: World, worker: Id, phase: Phase, move: Move)
    requires IsLegal(def) && !move.Write?
    ensures KeepsJob(world, phase, Act(def, world, worker, phase, move).1)
  {
    match move
    case Create(jobId, ids, now) => PlanningKeepsJob(def, world, worker, phase, jobId, ids, now);
    case Advance(ids, now) => PlanningKeepsJob(def, world, worker, phase, 0, ids, now);
    case Pick(r, choice, startAt) => PickingKeepsJob(world, worker, phase, r, choice, startAt);
    case Read =>
    case Merge(now, later) => MergingKeepsJob(world, worker, phase, now, later);
    case Call(call) => ExecutionKeepsJob(world, worker, phase, call, Sessions.Deferred, 0, 0, 0, 0);
    case Finish(outcome, now, later, settleAt, closedAt) =>
      ExecutionKeepsJob(world, worker, phase, Sessions.CloseCall, outcome, now, later, settleAt, closedAt);
    case Stop =>
  }

  lemma OnlyWritesTouchStore(def: JobDefinition, world: World, worker: Id, phase: Phase, move: Move)
    requires IsLegal(def) && !move.Write?
    ensures Act(def, world, worker, phase, move).0.store == world.store
  {
  }

  /** A write into an empty store makes its job the stored one; any later write is of the stored job. */
  lemma WritingKeepsJob(world: World, n: nat, worker: Id, phase: Phase, isAcknowledged: bool)
    requires WorldOk(world, n) && PhaseOk(world, worker, phase)
    requires IsOneJob(world) && HoldsStoredJob(world, phase)
    ensures var (after, next) := ActWrite(world, phase, isAcknowledged);
            && IsOneJob(after) && HoldsStoredJob(after, next)
            && (after == world || (IsSaving(phase) && IsStoreOf(world, phase.job.id) && IsStoreOf(after, phase.job.id)))
  {
    if IsSaving(phase) && IsWriteAllowed(world, phase.job) {
      var after := Written(world, phase.job);
      forall k | k in after.store ensures after.store[k].job.id == phase.job.id && (k in world.store ==> world.store[k].job.id == phase.job.id) {
        if k != phase.job.iterNum {
          assert k in world.store;
          assert 1 in world.store;
        }
      }
      assert IsStoreOf(after, phase.job.id);
    }
  }

  /** With nothing stored yet, every other worker is idle or about to create the first iteration. */
  lemma OthersHoldStoredJob(world: World, n: nat, worker: Id, phase: Phase, after: World, id: Id)
    requires WorldOk(world, n) && PhaseOk(world, worker, phase) && HoldsStoredJob(world, phase)
    requires IsStoreOf(world, id) && IsStoreOf(after, id)
    ensures HoldsStoredJob(after, phase)
  {
    if !phase.Idle? && !(phase.SavingIteration? && phase.job.iterNum == 1) {
      var k := StoredBehind(world, n, worker, phase);
      assert world.store[k].job.id == id;
    }
  }

  /** Any other worker's copy has an iteration stored behind it. */
  lemma StoredBehind(world: World, n: nat, worker: Id, phase: Phase) returns (k: nat)
    requires WorldOk(world, n) && PhaseOk(world, worker, phase) && !phase.Idle?
    requires !(phase.SavingIteration? && phase.job.iterNum == 1)
    ensures k in world.store && k <= phase.job.iterNum
    ensures !phase.SavingIteration? ==> k == phase.job.iterNum
  {
    if phase.SavingIteration? {
      k := phase.job.iterNum - 1;
    } else {
      k := phase.job.iterNum;
      assert WrittenOk(world, phase.job.version.value);
    }
  }

  // ----- Runs -----

  ghost predicate HoldsStored(s: System, worker: Id) {
    HoldsStoredJob(s.world, PhaseOf(s, worker))
  }

  ghost predicate RunsOneJob(s: System) {
    IsOneJob(s.world) && forall worker {:trigger HoldsStored(s, worker)} :: HoldsStored(s, worker)
  }

  /** A step leaves the store alone, or both it and what was stored before are of the worker's job. */
  lemma OwnStepKeepsJob(def: JobDefinition, world: World, n: nat, worker: Id, phase: Phase, move: Move)
    requires IsLegal(def) && WorldOk(world, n) && PhaseOk(world, worker, phase)
    requires IsOneJob(world) && HoldsStoredJob(world, phase)
    ensures var (after, next) := Act(def, world, worker, phase, move);
            && IsOneJob(after) && HoldsStoredJob(after, next)
            && (after.store == world.store
                || (!phase.Idle? && IsStoreOf(world, phase.job.id) && IsStoreOf(after, phase.job.id)))
  {
    if move.Write? {
      WritingKeepsJob(world, n, worker, phase, move.isAcknowledged);
    } else {
      OnlyWritesTouchStore(def, world, worker, phase, move);
      MoveKeepsJob(def, world, worker, phase, move);
      var (after, next) := Act(def, world, worker, phase, move);
      KeptJobIsStored(world, phase, next);
      SameStoreSameJob(world, after, next);
    }
  }

  lemma SameStoreSameJob(world: World, after: World, phase: Phase)
    requires IsOneJob(world) && HoldsStoredJob(world, phase) && after.store == world.store
    ensures IsOneJob(after) && HoldsStoredJob(after, phase)
  {
    var id :| IsStoreOf(world, id);
    assert IsStoreOf(after, id);
    if !phase.Idle? && IsStoreOf(world, phase.job.id) {
      assert IsStoreOf(after, phase.job.id);
    }
  }

  lemma StepRunsOneJob(def: JobDefinition, s: System, n: nat, worker: Id, move: Move)
    requires IsLegal(def) && SystemOk(s, n) && RunsOneJob(s)
    ensures RunsOneJob(Apply(def, s, worker, move))
  {
    var phase := PhaseOf(s, worker);
    assert WorkerOk(s, worker) && HoldsStored(s, worker);
    OwnStepKeepsJob(def, s.world, n, worker, phase, move);
    var s' := Apply(def, s, worker, move);
    forall other ensures HoldsStored(s', other) {
      if other != worker {
        assert WorkerOk(s, other) && HoldsStored(s, other);
        assert PhaseOf(s', other) == PhaseOf(s, other);
        if s'.world.store == s.world.store {
          SameStoreSameJob(s.world, s'.world, PhaseOf(s, other));
        } else {
          OthersHoldStoredJob(s.world, n, other, PhaseOf(s, other), s'.world, phase.job.id);
        }
      }
    }
  }

  lemma {:induction false} RunKeepsOneJob(def: JobDefinition, moves: seq<(Id, Move)>)
    requires IsLegal(def)
    ensures RunsOneJob(Run(def, moves))
  {
    if moves == [] {
      assert IsStoreOf(EMPTY_WORLD, 0);
    } else {
      var before, last := moves[..|moves| - 1], moves[|moves| - 1];
      RunKeepsOneJob(def, before);
      var n := RunKeepsSystem(def, before);
      StepRunsOneJob(def, Run(def, before), n, last.0, last.1);
    }
  }

  // ----- What a save can end with -----

  /** The copy belongs to the stored job, and its task to the newest iteration unless that is a later one. */
  lemma CopyMeetsStore(world: World, n: nat, worker: Id, phase: Phase)
    requires WorldOk(world, n) && PhaseOk(world, worker, phase) && HoldsStoredJob(world, phase)
    requires phase.SavingStart? || phase.SavingResult?
    ensures n in world.store && Newest(world.store) == n
    ensures var saved := world.store[n].job;
            && saved.iterNum == n && phase.job.id == saved.id && phase.job.iterNum <= n
            && (phase.task in saved.tasks <==> phase.job.iterNum == n)
  {
    LastIsNewest(world.store, n);
    var k := StoredBehind(world, n, worker, phase);
    assert StoredOk(world, n, n);
    assert WrittenOk(world, world.store[n].version);
    assert WrittenOk(world, phase.job.version.value);
  }

  /** The answer `answer` of a save that was refused, by what is stored as the newest iteration. */
  ghost predicate EndsAsStored(worker: Id, phase: Phase, saved: JobState, answer: Result<Phase>)
    requires IsSaving(phase)
  {
    match phase
    case SavingIteration(job) =>
      answer == if job.iterNum == 1 then Ok(Advancing(saved)) else if IsClosed(saved) then Ok(Idle) else Ok(Open(saved))
    case SavingSettled(_) => answer == Ok(Idle)
    case SavingStart(job, task) =>
      && job.iterNum <= saved.iterNum && job.id == saved.id && (task in saved.tasks <==> job.iterNum == saved.iterNum)
      && (if job.iterNum < saved.iterNum then answer == Err(TaskNotFound)
          else if IsHeldByAnother(saved.tasks[task], worker) then answer == Ok(Idle)
          else if IsClosed(saved) then answer == Err(Other)
          else answer.Ok? && answer.value.SavingStart?)
    case SavingResult(job, task) =>
      && job.iterNum <= saved.iterNum && job.id == saved.id && (task in saved.tasks <==> job.iterNum == saved.iterNum)
      && (if job.iterNum < saved.iterNum then answer == Err(TaskNotFound)
          else if IsHeldByAnother(saved.tasks[task], worker) || IsClosed(saved) then answer == Ok(Idle)
          else answer.Ok? && answer.value.SavingResult?)
  }

  lemma SaveEndsAsStored(world: World, n: nat, worker: Id, phase: Phase, now: Moment, later: Moment)
    requires WorldOk(world, n) && PhaseOk(world, worker, phase) && HoldsStoredJob(world, phase)
    requires IsSaving(phase) && n in world.store
    ensures EndsAsStored(worker, phase, world.store[n].job,
                         Saving.HandlerOf(worker)(phase, world.store[n].job, now, later))
  {
    var saved := world.store[n].job;
    match phase
    case SavingIteration(job) => OtherHandlersLaw(worker, job, saved, now, later);
    case SavingSettled(job) => OtherHandlersLaw(worker, job, saved, now, later);
    case SavingStart(job, task) =>
      CopyMeetsStore(world, n, worker, phase);
      StartHandlerLaw(worker, job, task, saved, now, later);
    case SavingResult(job, task) =>
      CopyMeetsStore(world, n, worker, phase);
      ResultHandlerLaw(worker, job, task, saved, now, later);
  }

  /**
   * How a save that was refused ends, for every run, by the newest stored iteration. A copy of an
   * iteration that is not the newest any more ends with its task not found. Otherwise a start is given
   * up exactly if another worker holds its task and is an error exactly if nobody else does and the
   * iteration has closed, and a result is given up exactly in either case and never an error. Nothing
   * else ends a save: what is left is written, and no other copy's save ends in an error.
   */
  lemma {:induction false} RefusedSavesEnd(def: JobDefinition, moves: seq<(Id, Move)>, worker: Id, now: Moment, later: Moment)
    requires IsLegal(def)
    requires IsSaving(PhaseOf(Run(def, moves), worker))
    requires Newest(Run(def, moves).world.store) in Run(def, moves).world.store
    ensures var world, phase := Run(def, moves).world, PhaseOf(Run(def, moves), worker);
            var saved := world.store[Newest(world.store)].job;
            EndsAsStored(worker, phase, saved, Saving.HandlerOf(worker)(phase, saved, now, later))
  {
    var n := RunKeepsSystem(def, moves);
    RunKeepsOneJob(def, moves);
    var s := Run(def, moves);
    var phase := PhaseOf(s, worker);
    assert WorkerOk(s, worker) && HoldsStored(s, worker);
    LastIsNewest(s.world.store, n);
    SaveEndsAsStored(s.world, n, worker, phase, now, later);
  }
}
