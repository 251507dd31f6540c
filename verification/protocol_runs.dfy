/** The protocol's promises, for every run: any moves of any workers in any order. */
module ProtocolRuns {
  import opened Base
  import opened Settling
  import opened CascadeLaws
  import opened Jobs
  import opened JobLaws
  import opened JobObject
  import opened Planning
  import opened Protocol
  import opened ProtocolInvariant
  import opened ProtocolJobs
  import opened ProtocolSoundness
  import opened ProtocolSafety
  import Sessions
  import Saving

  ghost predicate WorkerOk(s: System, worker: Id) {
    PhaseOk(s.world, worker, PhaseOf(s, worker)) && PhaseSound(s.world, PhaseOf(s, worker))
  }

  ghost predicate SystemOk(s: System, n: nat) {
    && WorldOk(s.world, n)
    && WorldSound(s.world)
    && (forall worker {:trigger WorkerOk(s, worker)} :: WorkerOk(s, worker))
  }

  lemma StepKeepsSystem(def: JobDefinition, s: System, n: nat, worker: Id, move: Move) returns (n': nat)
    requires IsLegal(def) && SystemOk(s, n)
    ensures SystemOk(Apply(def, s, worker, move), n') && n <= n' <= n + 1
    ensures Extends(s.world, Apply(def, s, worker, move).world)
  {
    assert WorkerOk(s, worker);
    n' := Count(s.world, n, PhaseOf(s, worker), move);
    ActKeepsShape(def, s.world, n, worker, PhaseOf(s, worker), move);
    ActIsSound(def, s.world, n, worker, PhaseOf(s, worker), move);
    var s' := Apply(def, s, worker, move);
    forall other ensures WorkerOk(s', other) {
      if other != worker {
        assert WorkerOk(s, other);
        PhaseStays(s.world, s'.world, other, PhaseOf(s, other));
        SoundnessStays(s.world, s'.world, PhaseOf(s, other));
      }
    }
  }

  lemma {:induction false} RunKeepsSystem(def: JobDefinition, moves: seq<(Id, Move)>) returns (n: nat)
    requires IsLegal(def)
    ensures SystemOk(Run(def, moves), n)
  {
    if moves == [] {
      n := 0;
    } else {
      var before := RunKeepsSystem(def, moves[..|moves| - 1]);
      n := StepKeepsSystem(def, Run(def, moves[..|moves| - 1]), before, moves[|moves| - 1].0, moves[|moves| - 1].1);
    }
  }

  lemma {:induction false} HistoryExtends(def: JobDefinition, moves: seq<(Id, Move)>, i: nat)
    requires IsLegal(def) && i <= |moves|
    ensures Extends(Run(def, moves[..i]).world, Run(def, moves).world)
    decreases |moves|
  {
    if i == |moves| {
      assert moves[..i] == moves;
    } else {
      var before := moves[..|moves| - 1];
      assert before[..i] == moves[..i];
      HistoryExtends(def, before, i);
      var n := RunKeepsSystem(def, before);
      var n' := StepKeepsSystem(def, Run(def, before), n, moves[|moves| - 1].0, moves[|moves| - 1].1);
      ExtendsTransitively(Run(def, moves[..i]).world, Run(def, before).world, Run(def, moves).world);
    }
  }

  lemma ExtendsTransitively(a: World, b: World, c: World)
    requires Extends(a, b) && Extends(b, c)
    ensures Extends(a, c)
  {
  }

  // ----- The promises -----

  /**
   * Each closed stored iteration has only resolved tasks, and is stored failed exactly if a failure
   * among the tasks it was written with was not taken care of, at whatever later moment they are read.
   */
  lemma {:induction false} ClosedIterationsCarryTheirVerdict(def: JobDefinition, moves: seq<(Id, Move)>, k: nat, now: Moment)
    requires IsLegal(def)
    requires var store := Run(def, moves).world.store;
             k in store && IsProcessed(store[k].job) && store[k].job.completedAt.Some? ==> store[k].job.completedAt.value <= now
    ensures var store := Run(def, moves).world.store;
            k in store && IsProcessed(store[k].job) ==>
              && store[k].job.completedAt.Some?
              && AllResolved(store[k].job.tasks)
              && store[k].job.status == if HasLostTasks(store[k].job.tasks, now) then JobFailed else JobCompleted
  {
    var n := RunKeepsSystem(def, moves);
    var world := Run(def, moves).world;
    if k in world.store && IsProcessed(world.store[k].job) {
      assert StoredOk(world, n, k);
      assert SoundAt(world, world.store[k].version);
      VerdictIsTimeless(world.store[k].job.tasks, world.store[k].job.completedAt.value, now);
      VerdictLaw(world.store[k].job.tasks, world.store[k].job.completedAt.value);
      VerdictLaw(world.store[k].job.tasks, now);
    }
  }

  /** An iteration once stored closed is never rewritten. */
  lemma {:induction false} ClosedIterationsAreNeverRewritten(def: JobDefinition, moves: seq<(Id, Move)>, i: nat, k: nat)
    requires IsLegal(def) && i <= |moves|
    ensures var early, late := Run(def, moves[..i]).world.store, Run(def, moves).world.store;
            k in early && IsProcessed(early[k].job) ==> k in late && late[k] == early[k]
  {
    HistoryExtends(def, moves, i);
  }

  /** A task of one iteration never lands in another, then or later. */
  lemma {:induction false} TasksNeverChangeIteration(def: JobDefinition, moves: seq<(Id, Move)>, i: nat, k: nat, k': nat, x: Id)
    requires IsLegal(def) && i <= |moves|
    requires var early := Run(def, moves[..i]).world.store; k in early && x in early[k].job.tasks
    requires var late := Run(def, moves).world.store; k' in late && x in late[k'].job.tasks
    ensures k == k'
  {
    HistoryExtends(def, moves, i);
    var early, late := Run(def, moves[..i]).world, Run(def, moves).world;
    var m := RunKeepsSystem(def, moves[..i]);
    var n := RunKeepsSystem(def, moves);
    StoredBelongs(early, m, k);
    StoredBelongs(late, n, k');
  }

  lemma StoredBelongs(world: World, n: nat, k: nat)
    requires WorldOk(world, n) && k in world.store
    ensures world.store[k].job.iterNum == k && Belongs(world.births, world.store[k].job)
  {
    assert StoredOk(world, n, k);
    assert WrittenOk(world, world.store[k].version);
  }

  /**
   * Stored iterations are numbered from one without gaps, all but the newest are closed, and one
   * move adds at most the next number.
   */
  lemma IterationsGrowByOne(def: JobDefinition, moves: seq<(Id, Move)>) returns (n: nat, n': nat)
    requires IsLegal(def) && moves != []
    ensures var before, after := Run(def, moves[..|moves| - 1]).world.store, Run(def, moves).world.store;
            && (forall k :: k in before <==> 1 <= k <= n)
            && (forall k :: k in after <==> 1 <= k <= n')
            && n <= n' <= n + 1
            && (forall k :: 1 <= k < n' ==> IsProcessed(after[k].job))
  {
    var init, last := moves[..|moves| - 1], moves[|moves| - 1];
    n := RunKeepsSystem(def, init);
    n' := StepKeepsSystem(def, Run(def, init), n, last.0, last.1);
    var world := Run(def, moves).world;
    forall k | 1 <= k < n' ensures k in world.store && IsProcessed(world.store[k].job) {
      assert k in world.store;
      assert StoredOk(world, n', k);
    }
  }

  /**
   * No run meets a deadlock: not while looking for work, not while saving a result, and not after a
   * merge.
   */
  lemma {:induction false} NoRunMeetsADeadlock(def: JobDefinition, moves: seq<(Id, Move)>, worker: Id,
                            r: PickReadings, outcome: Sessions.ExecutorOutcome,
                            now: Moment, later: Moment, settleAt: Moment, closedAt: Moment)
    requires IsLegal(def) && r.settleAt <= r.closedAt && settleAt <= closedAt && now <= later
    ensures var s := Run(def, moves);
            var phase := PhaseOf(s, worker);
            && (phase.Open? && Prepared(phase.job, worker, r).Ok? ==>
                  TrySettle(Prepared(phase.job, worker, r).value, worker, r.settleAt, r.closedAt).result != Err(IterationDeadlock))
            && (phase.Executing? && Sessions.ApplyOutcome(phase.job, phase.task, worker, outcome, now, later).Ok? ==>
                  TrySettle(Sessions.ApplyOutcome(phase.job, phase.task, worker, outcome, now, later).value, worker,
                            settleAt, closedAt).result != Err(IterationDeadlock))
            && (phase.SavingResult? && Newest(s.world.store) in s.world.store ==>
                  MergeProcessed(s.world.store[Newest(s.world.store)].job, phase.job, worker, phase.task, now, later).result
                    != Err(IterationDeadlock))
  {
    var n := RunKeepsSystem(def, moves);
    var s := Run(def, moves);
    var phase := PhaseOf(s, worker);
    assert WorkerOk(s, worker);
    LastIsNewest(s.world.store, n);
    if phase.Open? {
      PickIsSound(s.world.births, phase.job, worker, r, 0, 0);
    } else if phase.Executing? && Sessions.ApplyOutcome(phase.job, phase.task, worker, outcome, now, later).Ok? {
      FinishIsSound(s.world, worker, phase.job, phase.task, outcome, now, later, settleAt, closedAt);
    } else if phase.SavingResult? && n > 0 {
      NewestIsSound(s.world, n);
      ProcessedMergeIsSound(s.world, n, worker, phase.job, phase.task, now, later);
    }
  }

  // ----- What saving rests on -----

  /** The store of a run is one the retry loop may be handed: what it re-reads and merges may be written. */
  lemma {:induction false} RunsStoreConsistently(def: JobDefinition, moves: seq<(Id, Move)>)
    requires IsLegal(def)
    ensures Saving.IsConsistent(Run(def, moves).world.store)
  {
    var n := RunKeepsSystem(def, moves);
    var world := Run(def, moves).world;
    forall k | k in world.store
      ensures world.store[k].job.iterNum == k && world.store[k].job.version == Some(world.store[k].version)
    {
      assert StoredOk(world, n, k);
      assert WrittenOk(world, world.store[k].version);
    }
  }

  /** The version of a copy was handed out before. */
  ghost predicate IsKnown(world: World, job: JobState) {
    job.version.Some? ==> job.version.value < world.nextVersion
  }

  lemma ActKeepsRefusal(def: JobDefinition, world: World, worker: Id, phase: Phase, move: Move, job: JobState)
    requires IsLegal(def) && IsKnown(world, job) && !IsWriteAllowed(world, job)
    ensures var after := Act(def, world, worker, phase, move).0;
            IsKnown(after, job) && !IsWriteAllowed(after, job)
  {
  }

  lemma {:induction false} RunKeepsRefusal(def: JobDefinition, moves: seq<(Id, Move)>, i: nat, job: JobState)
    requires IsLegal(def) && i <= |moves|
    requires var world := Run(def, moves[..i]).world; IsKnown(world, job) && !IsWriteAllowed(world, job)
    ensures var world := Run(def, moves).world; IsKnown(world, job) && !IsWriteAllowed(world, job)
    decreases |moves|
  {
    if i == |moves| {
      assert moves[..i] == moves;
    } else {
      var before, last := moves[..|moves| - 1], moves[|moves| - 1];
      assert before[..i] == moves[..i];
      RunKeepsRefusal(def, before, i, job);
      var s := Run(def, before);
      ActKeepsRefusal(def, s.world, last.0, PhaseOf(s, last.0), last.1, job);
    }
  }

  /**
   * A write once refused is refused for good, whatever any worker does next: a worker may re-read
   * and merge at its leisure, and a stale copy kept anywhere can never reach the store.
   */
  lemma {:induction false} RefusedWritesStayRefused(def: JobDefinition, moves: seq<(Id, Move)>, i: nat, worker: Id)
    requires IsLegal(def) && i <= |moves|
    requires var s := Run(def, moves[..i]);
             IsSaving(PhaseOf(s, worker)) && !IsWriteAllowed(s.world, PhaseOf(s, worker).job)
    ensures !IsWriteAllowed(Run(def, moves).world, PhaseOf(Run(def, moves[..i]), worker).job)
  {
    var n := RunKeepsSystem(def, moves[..i]);
    var s := Run(def, moves[..i]);
    assert WorkerOk(s, worker);
    RunKeepsRefusal(def, moves, i, PhaseOf(s, worker).job);
  }
}
