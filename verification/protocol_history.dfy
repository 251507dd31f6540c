/**
 * What storage held before: a worker that saves a result names itself the owner only of tasks it was
 * stored as the owner of, at some earlier point of the run.
 */
module ProtocolHistory {
  import opened Base
  import opened Jobs
  import opened Planning
  import opened Ownership
  import opened Protocol
  import opened ProtocolInvariant
  import opened ProtocolSteps
  import opened ProtocolOwnership
  import opened ProtocolOverrides
  import opened ProtocolRuns
  import Sessions

  ghost predicate IsHeldIn(world: World, v: nat, k: nat, x: Id, worker: Id) {
    && v in world.written && world.written[v].iterNum == k
    && x in world.written[v].tasks && world.written[v].tasks[x].owner == Some(worker)
  }

  /** Some state ever stored of iteration `k` names `worker` as the owner of `x`. */
  ghost predicate WasHeld(world: World, k: nat, x: Id, worker: Id) {
    exists v :: IsHeldIn(world, v, k, x, worker)
  }

  ghost predicate HeldAt(world: World, worker: Id, job: JobState, x: Id) {
    x in job.tasks && job.tasks[x].owner == Some(worker) ==> WasHeld(world, job.iterNum, x, worker)
  }

  ghost predicate AllHeld(world: World, worker: Id, phase: Phase) {
    phase.SavingResult? ==> forall x {:trigger HeldAt(world, worker, phase.job, x)} :: HeldAt(world, worker, phase.job, x)
  }

  lemma HeldStays(a: World, b: World, worker: Id, phase: Phase)
    requires AllHeld(a, worker, phase) && Extends(a, b)
    ensures AllHeld(b, worker, phase)
  {
    if phase.SavingResult? {
      forall x ensures HeldAt(b, worker, phase.job, x) {
        assert HeldAt(a, worker, phase.job, x);
        if v :| IsHeldIn(a, v, phase.job.iterNum, x, worker) {
          assert IsHeldIn(b, v, phase.job.iterNum, x, worker);
        }
      }
    }
  }

  /** What an execution holds, storage held when it began. */
  lemma ExecutionIsHeld(world: World, n: nat, worker: Id, job: JobState, task: Id, x: Id)
    requires WorldOk(world, n) && PhaseOk(world, worker, Executing(job, task)) && PhaseOwned(world, worker, Executing(job, task))
    ensures HeldAt(world, worker, job, x)
  {
    var v := job.version.value;
    var base := world.written[v];
    assert IsGained(base, job, worker, x) && StandsAt(worker, Executing(job, task), base.tasks, job.tasks, x);
    if x in job.tasks && job.tasks[x].owner == Some(worker) {
      if Drifts(base.tasks[x], job.tasks[x]) {
        DriftFacts(base.tasks[x], job.tasks[x]);
      }
      assert IsHeldIn(world, v, job.iterNum, x, worker);
    }
  }

  lemma FinishIsHeld(world: World, n: nat, worker: Id, phase: Phase, outcome: Sessions.ExecutorOutcome,
                     now: Moment, later: Moment, settleAt: Moment, closedAt: Moment)
    requires WorldOk(world, n) && PhaseOk(world, worker, phase) && PhaseOwned(world, worker, phase) && AllHeld(world, worker, phase)
    ensures AllHeld(world, worker, ActFinish(world, worker, phase, outcome, now, later, settleAt, closedAt).1)
  {
    if phase.Executing? && settleAt <= closedAt && Sessions.ApplyOutcome(phase.job, phase.task, worker, outcome, now, later).Ok? {
      var applied := Sessions.ApplyOutcome(phase.job, phase.task, worker, outcome, now, later).value;
      var base := world.written[phase.job.version.value].tasks;
      ExecutionHoldsItsTask(world, worker, phase.job, phase.task);
      OutcomeActs(base, phase.job, phase.task, worker, outcome, now, later);
      OutcomeKeepsVersion(phase.job, phase.task, worker, outcome, now, later);
      SettlingDrifts(applied, worker, settleAt, closedAt);
      var settled := TrySettle(applied, worker, settleAt, closedAt).job;
      forall x ensures HeldAt(world, worker, settled, x) {
        ExecutionIsHeld(world, n, worker, phase.job, phase.task, x);
        assert DriftsAt(applied.tasks, settled.tasks, x);
        if x in settled.tasks {
          DriftFacts(applied.tasks[x], settled.tasks[x]);
          OutcomeGainsNothing(phase.job, phase.task, worker, outcome, now, later, x);
        }
      }
    }
  }

  /** Recording an outcome adds no task and changes no owner. */
  lemma OutcomeGainsNothing(job: JobState, task: Id, worker: Id, outcome: Sessions.ExecutorOutcome, now: Moment, later: Moment, x: Id)
    requires Sessions.ApplyOutcome(job, task, worker, outcome, now, later).Ok?
    ensures var after := Sessions.ApplyOutcome(job, task, worker, outcome, now, later).value.tasks;
            x in after ==> x in job.tasks && after[x].owner == job.tasks[x].owner
  {
  }

  /** A carried-over task names its worker as it did in the copy, or as storage does. */
  lemma MergeIsHeld(world: World, n: nat, worker: Id, job: JobState, task: Id, now: Moment, later: Moment)
    requires WorldOk(world, n) && n in world.store && task in world.store[n].job.tasks
    requires PhaseOk(world, worker, SavingResult(job, task)) && AllHeld(world, worker, SavingResult(job, task))
    ensures var settled := TrySettle(CarriedOver(world.store[n].job, job, worker, now), worker, now, later).job;
            AllHeld(world, worker, SavingResult(settled, task))
  {
    var saved := world.store[n].job;
    SharedTaskSharesIteration(world, n, worker, job, task);
    NewestIsLoaded(world, n);
    var carried := CarriedOver(saved, job, worker, now);
    SettlingDrifts(carried, worker, now, later);
    var settled := TrySettle(carried, worker, now, later).job;
    forall x ensures HeldAt(world, worker, settled, x) {
      assert HeldAt(world, worker, job, x) && DriftsAt(carried.tasks, settled.tasks, x);
      if x in settled.tasks && settled.tasks[x].owner == Some(worker) {
        DriftFacts(carried.tasks[x], settled.tasks[x]);
        assert x in saved.tasks && carried.tasks[x] == saved.tasks[x] ==> IsHeldIn(world, saved.version.value, n, x, worker);
      }
    }
  }

  lemma ConflictIsHeld(world: World, n: nat, worker: Id, phase: Phase, now: Moment, later: Moment)
    requires WorldOk(world, n) && PhaseOk(world, worker, phase) && AllHeld(world, worker, phase)
    ensures AllHeld(world, worker, ActMerge(world, worker, phase, now, later).1)
  {
    LastIsNewest(world.store, n);
    if phase.SavingResult? && n > 0 {
      var saved := world.store[n].job;
      ProcessedMergeIsSettledCarry(saved, phase.job, worker, phase.task, now, later);
      if phase.task in saved.tasks {
        MergeIsHeld(world, n, worker, phase.job, phase.task, now, later);
      }
    }
  }

  /** No other move begins the saving of a result. */
  lemma OthersSaveNoResult(def: JobDefinition, world: World, worker: Id, phase: Phase, move: Move)
    requires IsLegal(def) && !move.Merge? && !move.Finish?
    ensures var after := Act(def, world, worker, phase, move).1; after.SavingResult? ==> after == phase
  {
  }

  lemma ActIsHeld(def: JobDefinition, world: World, n: nat, worker: Id, phase: Phase, move: Move)
    requires IsLegal(def) && WorldOk(world, n) && PhaseOk(world, worker, phase) && PhaseOwned(world, worker, phase)
    requires AllHeld(world, worker, phase)
    ensures AllHeld(world, worker, Act(def, world, worker, phase, move).1)
  {
    match move
    case Merge(now, later) => ConflictIsHeld(world, n, worker, phase, now, later);
    case Finish(outcome, now, later, settleAt, closedAt) =>
      FinishIsHeld(world, n, worker, phase, outcome, now, later, settleAt, closedAt);
    case _ => OthersSaveNoResult(def, world, worker, phase, move);
  }

  ghost predicate HeldBy(s: System, worker: Id) {
    AllHeld(s.world, worker, PhaseOf(s, worker))
  }

  ghost predicate RunHeld(s: System) {
    forall worker {:trigger HeldBy(s, worker)} :: HeldBy(s, worker)
  }

  lemma {:induction false} RunStaysHeld(def: JobDefinition, moves: seq<(Id, Move)>)
    requires IsLegal(def)
    ensures RunHeld(Run(def, moves))
  {
    if moves == [] {
      forall worker ensures HeldBy(Run(def, moves), worker) {
      }
    } else {
      var before := moves[..|moves| - 1];
      var (worker, move) := moves[|moves| - 1];
      RunStaysHeld(def, before);
      RunStaysOwned(def, before);
      var n := RunKeepsSystem(def, before);
      var s, s' := Run(def, before), Run(def, moves);
      var n' := StepKeepsSystem(def, s, n, worker, move);
      assert WorkerOk(s, worker) && OwnedBy(s, worker) && HeldBy(s, worker);
      ActIsHeld(def, s.world, n, worker, PhaseOf(s, worker), move);
      forall other ensures HeldBy(s', other) {
        assert HeldBy(s, other);
        HeldStays(s.world, s'.world, other, PhaseOf(s', other));
      }
    }
  }

  /** What was written under a version was, right after that, what storage held. */
  lemma {:induction false} WrittenWasStored(def: JobDefinition, moves: seq<(Id, Move)>, v: nat) returns (i: nat)
    requires IsLegal(def) && v in Run(def, moves).world.written
    ensures i <= |moves|
    ensures var job, store := Run(def, moves).world.written[v], Run(def, moves[..i]).world.store;
            job.iterNum in store && store[job.iterNum] == Stored(v, job)
  {
    var before := moves[..|moves| - 1];
    var (worker, move) := moves[|moves| - 1];
    var s := Run(def, before);
    var n := RunKeepsSystem(def, before);
    MoveWritesOrMints(def, s.world, worker, PhaseOf(s, worker), move);
    if v in s.world.written {
      i := WrittenWasStored(def, before, v);
      assert before[..i] == moves[..i];
    } else {
      i := |moves|;
      assert moves[..i] == moves;
    }
  }

  ghost predicate IsStoredAs(def: JobDefinition, moves: seq<(Id, Move)>, i: nat, k: nat, x: Id, worker: Id)
    requires IsLegal(def) && i <= |moves|
  {
    var store := Run(def, moves[..i]).world.store;
    k in store && x in store[k].job.tasks && store[k].job.tasks[x].owner == Some(worker)
  }

  /**
   * So a result, once stored, gives way only to the saved result of a worker it was taken over from:
   * at some earlier point of the run storage held the task as that worker's.
   */
  lemma {:induction false} CompletedTasksGiveWayOnlyToFormerOwners(def: JobDefinition, moves: seq<(Id, Move)>, k: nat, x: Id)
    returns (i: nat)
    requires IsLegal(def) && moves != []
    requires var before := Run(def, moves[..|moves| - 1]).world.store;
             k in before && x in before[k].job.tasks && before[k].job.tasks[x].status.Completed?
    ensures var s, after := Run(def, moves[..|moves| - 1]), Run(def, moves).world.store;
            var (worker, move) := moves[|moves| - 1];
            && i < |moves| && k in after && x in after[k].job.tasks
            && (after[k].job.tasks[x] == s.world.store[k].job.tasks[x]
                || (&& move.Write? && PhaseOf(s, worker).SavingResult? && x in PhaseOf(s, worker).job.tasks
                    && PhaseOf(s, worker).job.tasks[x].owner == Some(worker)
                    && s.world.store[k].job.tasks[x].owner.Some? && s.world.store[k].job.tasks[x].owner != Some(worker)
                    && IsStoredAs(def, moves, i, k, x, worker)))
  {
    i := 0;
    SettledTasksGiveWayOnlyToOverrides(def, moves, k, x);
    var before := moves[..|moves| - 1];
    var (worker, move) := moves[|moves| - 1];
    var s := Run(def, before);
    if Run(def, moves).world.store[k].job.tasks[x] != s.world.store[k].job.tasks[x] {
      RunStaysHeld(def, before);
      assert HeldBy(s, worker) && HeldAt(s.world, worker, PhaseOf(s, worker).job, x);
      var v :| IsHeldIn(s.world, v, k, x, worker);
      i := WrittenWasStored(def, before, v);
      assert before[..i] == moves[..i];
    }
  }
}
