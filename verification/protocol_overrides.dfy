/**
 * Over every run: which stored tasks a merged start may replace, and when a settled stored task
 * stops being what it was.
 */
module ProtocolOverrides {
  import opened Base
  import opened Tasks
  import opened Jobs
  import opened JobObject
  import opened Planning
  import opened Ownership
  import opened Protocol
  import opened ProtocolInvariant
  import opened ProtocolSteps
  import opened ProtocolOwnership
  import opened ProtocolRuns
  import Sessions

  ghost predicate IsOwned(worker: Id, after: (World, Phase)) {
    WorldOwned(after.0) && PhaseOwned(after.0, worker, after.1)
  }

  /** Nothing here looks at where a task was born. */
  lemma MintingKeepsOwned(world: World, births: Births, worker: Id, phase: Phase)
    ensures WorldOwned(world) ==> WorldOwned(world.(births := births))
    ensures PhaseOwned(world, worker, phase) ==> PhaseOwned(world.(births := births), worker, phase)
  {
    if WorldOwned(world) {
      forall v | v in world.written ensures VersionOwned(world.(births := births), v) {
        assert VersionOwned(world, v);
      }
    }
  }

  lemma NewTaskIsOwned(worker: Id, def: TaskDefinition, maxInputSize: nat, dependsOn: seq<Id>)
    requires Validate(def, maxInputSize).Ok?
    ensures var t := NewTask(worker, None, def, dependsOn); WellOwned(t) && t.owner.None?
  {
  }

  lemma PlannedIsOwned(def: JobDefinition, jobId: Id, ids: seq<Id>, worker: Id, now: Moment)
    requires IsLegal(def) && |ids| == |def.initialTasks| && Distinct(ids)
    ensures NewJob(def, jobId, ids, worker, now).Ok?
    ensures var tasks := NewJob(def, jobId, ids, worker, now).value.tasks; AllOwned(tasks) && NoneStarted(tasks)
  {
    PlannedTasks(def, ids, worker, |ids|);
    assert ids[..|ids|] == ids;
    var tasks := NewJob(def, jobId, ids, worker, now).value.tasks;
    forall x ensures OwnedAt(tasks, x) && (x in tasks ==> tasks[x].owner.None?) {
      if x in tasks {
        var i :| 0 <= i < |ids| && ids[i] == x;
        assert PlannedAt(def, ids, worker, tasks, i);
        NewTaskIsOwned(worker, def.initialTasks[i], def.settings.maxInputSize, tasks[x].dependsOn);
      }
    }
  }

  lemma CreateIsOwned(def: JobDefinition, world: World, worker: Id, phase: Phase, jobId: Id, ids: seq<Id>, now: Moment)
    requires IsLegal(def) && WorldOwned(world) && PhaseOwned(world, worker, phase)
    ensures IsOwned(worker, ActCreate(def, world, worker, phase, jobId, ids, now))
  {
    if |ids| == |def.initialTasks| && AreFresh(world, ids) {
      PlannedIsOwned(def, jobId, ids, worker, now);
      MintingKeepsOwned(world, world.births + BirthsOf(def, ids, 1), worker, phase);
    }
  }

  lemma AdvanceIsOwned(def: JobDefinition, world: World, worker: Id, phase: Phase, ids: seq<Id>, now: Moment)
    requires IsLegal(def) && WorldOwned(world) && PhaseOwned(world, worker, phase) && PhaseOk(world, worker, phase)
    ensures IsOwned(worker, ActAdvance(def, world, worker, phase, ids, now))
  {
    if phase.Advancing? {
      if IsProcessed(phase.job) && |ids| == |def.initialTasks| && AreFresh(world, ids) {
        PlannedIsOwned(def, phase.job.id, ids, worker, now);
        MintingKeepsOwned(world, world.births + BirthsOf(def, ids, phase.job.iterNum + 1), worker, phase);
      }
      OpenedIsOwned(world, worker, phase.job);
    }
  }

  lemma OpenedIsOwned(world: World, worker: Id, job: JobState)
    requires PhaseOwned(world, worker, Advancing(job))
    ensures PhaseOwned(world, worker, Open(job))
  {
    var base, stored := world.written[job.version.value].tasks, world.store[job.iterNum].job.tasks;
    forall x
      ensures StandsAt(worker, Open(job), base, job.tasks, x) && ReliesAt(worker, Open(job), base, job.tasks, stored, x)
    {
      assert StandsAt(worker, Advancing(job), base, job.tasks, x);
      assert ReliesAt(worker, Advancing(job), base, job.tasks, stored, x);
    }
  }

  /** The newest stored state as a worker has just read it. */
  lemma ReadIsOwned(world: World, n: nat, worker: Id)
    requires WorldOk(world, n) && WorldOwned(world) && n > 0
    ensures n in world.store
    ensures PhaseOwned(world, worker, Advancing(world.store[n].job)) && PhaseOwned(world, worker, Open(world.store[n].job))
  {
    NewestIsLoaded(world, n);
    assert VersionOwned(world, world.store[n].job.version.value);
    FreshCopyIsOwned(world, worker, Advancing(world.store[n].job));
    FreshCopyIsOwned(world, worker, Open(world.store[n].job));
  }

  lemma MergeIsOwned(world: World, n: nat, worker: Id, phase: Phase, now: Moment, later: Moment)
    requires WorldOk(world, n) && PhaseOk(world, worker, phase) && WorldOwned(world) && PhaseOwned(world, worker, phase)
    ensures IsOwned(worker, ActMerge(world, worker, phase, now, later))
  {
    LastIsNewest(world.store, n);
    if IsSaving(phase) && n > 0 {
      ReadIsOwned(world, n, worker);
      var saved := world.store[n].job;
      if phase.SavingStart? && MergePicked(saved, phase.job, worker, phase.task, now, later).Ok? {
        StartMergeIsOwned(world, n, worker, phase.job, phase.task, now, later);
      } else if phase.SavingResult? {
        ProcessedMergeIsSettledCarry(saved, phase.job, worker, phase.task, now, later);
        if phase.task in saved.tasks {
          ResultMergeIsOwned(world, n, worker, phase.job, phase.task, now, later);
        }
      }
    }
  }

  lemma WriteIsOwned(world: World, n: nat, worker: Id, phase: Phase, isAcknowledged: bool)
    requires WorldOk(world, n) && PhaseOk(world, worker, phase) && WorldOwned(world) && PhaseOwned(world, worker, phase)
    ensures IsOwned(worker, ActWrite(world, phase, isAcknowledged))
  {
    if IsSaving(phase) && IsWriteAllowed(world, phase.job) {
      WriteKeepsWorldOwned(world, phase.job);
      AcknowledgedIsOwned(world, worker, phase);
      UnacknowledgedIsOwned(world, n, worker, phase);
    }
  }

  /** The execution's own task is its worker's, and what was read from storage is attributed to nobody. */
  lemma ExecutionHoldsItsTask(world: World, worker: Id, job: JobState, task: Id)
    requires PhaseOk(world, worker, Executing(job, task)) && PhaseOwned(world, worker, Executing(job, task))
    ensures task in job.tasks && job.tasks[task].owner == Some(worker)
    ensures var base := world.written[job.version.value].tasks;
            forall x :: x in base && x in job.tasks ==> job.tasks[x].createdByTask.None?
  {
    var base := world.written[job.version.value].tasks;
    assert StandsAt(worker, Executing(job, task), base, job.tasks, task);
    if Drifts(base[task], job.tasks[task]) {
      DriftFacts(base[task], job.tasks[task]);
    }
  }

  lemma CallIsOwned(world: World, worker: Id, phase: Phase, call: Sessions.Call)
    requires PhaseOk(world, worker, phase) && WorldOwned(world) && PhaseOwned(world, worker, phase)
    ensures IsOwned(worker, ActCall(world, worker, phase, call))
  {
    if phase.Executing? && (call.AddCall? ==> call.minted !in world.births) {
      var performed := Sessions.Perform(phase.job, call, worker, phase.task);
      if performed.Ok? {
        ExecutionHoldsItsTask(world, worker, phase.job, phase.task);
        CallActs(world.written[phase.job.version.value].tasks, phase.job, call, worker, phase.task);
        CallKeepsVersion(phase.job, call, worker, phase.task);
        ActingKeepsOwned(world, worker, phase.job, phase.task, performed.value);
        MintingKeepsOwned(world, Registered(world, call, performed.value).births, worker, Executing(performed.value, phase.task));
      }
    }
  }

  lemma CallKeepsVersion(job: JobState, call: Sessions.Call, worker: Id, task: Id)
    requires Sessions.Perform(job, call, worker, task).Ok?
    ensures var after := Sessions.Perform(job, call, worker, task).value;
            after.version == job.version && after.iterNum == job.iterNum
  {
  }

  lemma FinishIsOwned(world: World, worker: Id, phase: Phase, outcome: Sessions.ExecutorOutcome,
                      now: Moment, later: Moment, settleAt: Moment, closedAt: Moment)
    requires PhaseOk(world, worker, phase) && WorldOwned(world) && PhaseOwned(world, worker, phase)
    ensures IsOwned(worker, ActFinish(world, worker, phase, outcome, now, later, settleAt, closedAt))
  {
    if phase.Executing? && Sessions.ApplyOutcome(phase.job, phase.task, worker, outcome, now, later).Ok? {
      var applied := Sessions.ApplyOutcome(phase.job, phase.task, worker, outcome, now, later).value;
      ExecutionHoldsItsTask(world, worker, phase.job, phase.task);
      OutcomeActs(world.written[phase.job.version.value].tasks, phase.job, phase.task, worker, outcome, now, later);
      OutcomeKeepsVersion(phase.job, phase.task, worker, outcome, now, later);
      ActingKeepsOwned(world, worker, phase.job, phase.task, applied);
      FinishedCopyIsOwned(world, worker, applied, phase.task, settleAt, closedAt);
    }
  }

  lemma OutcomeKeepsVersion(job: JobState, task: Id, worker: Id, outcome: Sessions.ExecutorOutcome, now: Moment, later: Moment)
    requires Sessions.ApplyOutcome(job, task, worker, outcome, now, later).Ok?
    ensures var after := Sessions.ApplyOutcome(job, task, worker, outcome, now, later).value;
            after.version == job.version && after.iterNum == job.iterNum
  {
  }

  lemma LookIsOwned(world: World, n: nat, worker: Id, phase: Phase, r: PickReadings, choice: Id, startAt: Moment)
    requires WorldOk(world, n) && PhaseOk(world, worker, phase) && WorldOwned(world) && PhaseOwned(world, worker, phase)
    ensures IsOwned(worker, ActRead(world, phase))
    ensures IsOwned(worker, ActPick(world, worker, phase, r, choice, startAt))
  {
    LastIsNewest(world.store, n);
    if n > 0 {
      ReadIsOwned(world, n, worker);
    }
    if phase.Open? {
      PickIsOwned(world, worker, phase.job, r, choice, startAt);
    }
  }

  lemma ActIsOwned(def: JobDefinition, world: World, n: nat, worker: Id, phase: Phase, move: Move)
    requires IsLegal(def) && WorldOk(world, n) && PhaseOk(world, worker, phase)
    requires WorldOwned(world) && PhaseOwned(world, worker, phase)
    ensures IsOwned(worker, Act(def, world, worker, phase, move))
  {
    match move
    case Create(jobId, ids, now) => CreateIsOwned(def, world, worker, phase, jobId, ids, now);
    case Read => LookIsOwned(world, n, worker, phase, PickReadings(0, 0, 0, 0, 0, 0, 0), 0, 0);
    case Advance(ids, now) => AdvanceIsOwned(def, world, worker, phase, ids, now);
    case Pick(r, choice, startAt) => LookIsOwned(world, n, worker, phase, r, choice, startAt);
    case Write(isAcknowledged) => WriteIsOwned(world, n, worker, phase, isAcknowledged);
    case Merge(now, later) => MergeIsOwned(world, n, worker, phase, now, later);
    case Call(call) => CallIsOwned(world, worker, phase, call);
    case Finish(outcome, now, later, settleAt, closedAt) =>
      FinishIsOwned(world, worker, phase, outcome, now, later, settleAt, closedAt);
    case Stop =>
  }

  /** A move leaves the store as it was, unless it is a write that lands. */
  lemma MoveWritesOrMints(def: JobDefinition, world: World, worker: Id, phase: Phase, move: Move)
    requires IsLegal(def)
    ensures var after := Act(def, world, worker, phase, move).0;
            if move.Write? && IsSaving(phase) && IsWriteAllowed(world, phase.job) then after == Written(world, phase.job)
            else after == world.(births := after.births)
  {
  }

  lemma OthersStayOwned(def: JobDefinition, world: World, n: nat, worker: Id, phase: Phase, move: Move, other: Id, theirs: Phase)
    requires IsLegal(def) && WorldOk(world, n) && PhaseOk(world, worker, phase) && PhaseOwned(world, worker, phase)
    requires PhaseOwned(world, other, theirs) && other != worker
    ensures PhaseOwned(Act(def, world, worker, phase, move).0, other, theirs)
  {
    MoveWritesOrMints(def, world, worker, phase, move);
    var after := Act(def, world, worker, phase, move).0;
    if move.Write? && IsSaving(phase) && IsWriteAllowed(world, phase.job) {
      WriteKeepsOthers(world, n, worker, phase, other, theirs);
    } else {
      MintingKeepsOwned(world, after.births, other, theirs);
    }
  }

  // ----- Every run -----

  ghost predicate OwnedBy(s: System, worker: Id) {
    PhaseOwned(s.world, worker, PhaseOf(s, worker))
  }

  ghost predicate RunOwned(s: System) {
    WorldOwned(s.world) && forall worker {:trigger OwnedBy(s, worker)} :: OwnedBy(s, worker)
  }

  lemma {:induction false} RunStaysOwned(def: JobDefinition, moves: seq<(Id, Move)>)
    requires IsLegal(def)
    ensures RunOwned(Run(def, moves))
  {
    if moves == [] {
      forall worker ensures OwnedBy(Run(def, moves), worker) {
      }
    } else {
      var before := moves[..|moves| - 1];
      var (worker, move) := moves[|moves| - 1];
      RunStaysOwned(def, before);
      var n := RunKeepsSystem(def, before);
      var s, s' := Run(def, before), Run(def, moves);
      assert WorkerOk(s, worker) && OwnedBy(s, worker);
      ActIsOwned(def, s.world, n, worker, PhaseOf(s, worker), move);
      forall other ensures OwnedBy(s', other) {
        if other != worker {
          assert OwnedBy(s, other);
          OthersStayOwned(def, s.world, n, worker, PhaseOf(s, worker), move, other, PhaseOf(s, other));
        }
      }
    }
  }

  /**
   * In every run, what a start finds in the state it is merged into: a task nobody ever started -
   * waiting, blocked or put out by the cascade - or one of the worker's own that runs or failed, and
   * then it is what the copy was read with, or the very start being saved, save for what drifts. Never
   * a result, never a branch its executor skipped, never anything another worker holds.
   */
  lemma {:induction false} MergedStartFindsUnstartedOrOwn(def: JobDefinition, moves: seq<(Id, Move)>, worker: Id, now: Moment, later: Moment)
    requires IsLegal(def)
    requires var s := Run(def, moves);
             var phase := PhaseOf(s, worker);
             && phase.SavingStart? && Newest(s.world.store) in s.world.store
             && MergePicked(s.world.store[Newest(s.world.store)].job, phase.job, worker, phase.task, now, later).Ok?
    ensures var s := Run(def, moves);
            var phase, tasks := PhaseOf(s, worker), s.world.store[Newest(s.world.store)].job.tasks;
            && phase.task in tasks && phase.task in phase.job.tasks
            && IsFoundByStart(worker, tasks[phase.task])
            && phase.job.version.Some? && phase.job.version.value in s.world.written
            && var read := s.world.written[phase.job.version.value].tasks;
            && phase.task in read
            && (tasks[phase.task].owner == Some(worker) ==>
                  Drifts(read[phase.task], tasks[phase.task]) || Drifts(phase.job.tasks[phase.task], tasks[phase.task]))
  {
    var n := RunKeepsSystem(def, moves);
    RunStaysOwned(def, moves);
    var s := Run(def, moves);
    LastIsNewest(s.world.store, n);
    assert WorkerOk(s, worker) && OwnedBy(s, worker);
    var phase := PhaseOf(s, worker);
    StartMergeFinds(s.world, n, worker, phase.job, phase.task, now, later);
  }

  /** The move writes, over iteration `k`, a copy that names its writer as the owner of task `x`. */
  ghost predicate WritesOwn(world: World, worker: Id, phase: Phase, move: Move, k: nat, x: Id) {
    && move.Write? && IsSaving(phase) && IsWriteAllowed(world, phase.job) && phase.job.iterNum == k
    && x in phase.job.tasks && phase.job.tasks[x].owner == Some(worker)
  }

  /** What the move leaves of stored task `x`, that was `stored`, when nothing but its owner's doing can change it. */
  ghost function Overridden(world: World, worker: Id, phase: Phase, move: Move, k: nat, x: Id, stored: Task): Task {
    if WritesOwn(world, worker, phase, move, k, x) then Restored(phase.job.tasks[x]) else stored
  }

  /** Why it may: a start of a task that was put out, or a result that brings back what was taken over or failed. */
  ghost predicate OverridesAs(phase: Phase, worker: Id, x: Id, stored: Task) {
    || (phase.SavingStart? && phase.task == x && (IsPutOut(stored) || (stored.owner == Some(worker) && stored.status.Failed?)))
    || (phase.SavingResult? && stored.owner.Some? && (stored.owner != Some(worker) || stored.status.Failed?))
  }

  lemma FinalChangesByOverride(world: World, n: nat, worker: Id, phase: Phase, x: Id)
    requires WorldOk(world, n) && PhaseOk(world, worker, phase) && WorldOwned(world) && PhaseOwned(world, worker, phase)
    requires IsSaving(phase) && IsWriteAllowed(world, phase.job) && phase.job.iterNum in world.store
    requires x in world.store[phase.job.iterNum].job.tasks && IsFinal(world.store[phase.job.iterNum].job.tasks[x])
    ensures x in phase.job.tasks
    ensures Restored(phase.job.tasks[x]) != world.store[phase.job.iterNum].job.tasks[x] ==>
              && phase.job.tasks[x].owner == Some(worker)
              && OverridesAs(phase, worker, x, world.store[phase.job.iterNum].job.tasks[x])
  {
    var k := phase.job.iterNum;
    assert StoredOk(world, n, k);
    var v := world.store[k].version;
    assert WrittenOk(world, v) && VersionOwned(world, v);
    var stored := world.store[k].job.tasks;
    assert StandsAt(worker, phase, stored, phase.job.tasks, x) && OwnedAt(stored, x);
    if Drifts(stored[x], phase.job.tasks[x]) {
      DriftFacts(stored[x], phase.job.tasks[x]);
    }
  }

  lemma MoveGivesWay(def: JobDefinition, world: World, n: nat, worker: Id, phase: Phase, move: Move, k: nat, x: Id)
    requires IsLegal(def) && WorldOk(world, n) && PhaseOk(world, worker, phase)
    requires WorldOwned(world) && PhaseOwned(world, worker, phase)
    requires k in world.store && x in world.store[k].job.tasks && IsFinal(world.store[k].job.tasks[x])
    ensures var after := Act(def, world, worker, phase, move).0.store;
            var stored := world.store[k].job.tasks[x];
            && k in after && x in after[k].job.tasks
            && after[k].job.tasks[x] == Overridden(world, worker, phase, move, k, x, stored)
            && (after[k].job.tasks[x] != stored ==> OverridesAs(phase, worker, x, stored))
  {
    MoveWritesOrMints(def, world, worker, phase, move);
    if move.Write? && IsSaving(phase) && IsWriteAllowed(world, phase.job) && phase.job.iterNum == k {
      FinalChangesByOverride(world, n, worker, phase, x);
    }
  }

  /**
   * In every run, a settled stored task becomes the writer's version of it if the move writes a copy
   * that names the writer as its owner, and stays exactly as it is under every other move. Where the
   * two versions differ, the write is a start of a task the cascade had put out, or a result that
   * carries a task taken over by another worker, or one of its own that was failed.
   */
  lemma {:induction false} SettledTasksGiveWayOnlyToOverrides(def: JobDefinition, moves: seq<(Id, Move)>, k: nat, x: Id)
    requires IsLegal(def) && moves != []
    requires var before := Run(def, moves[..|moves| - 1]).world.store;
             k in before && x in before[k].job.tasks && IsFinal(before[k].job.tasks[x])
    ensures var s, after := Run(def, moves[..|moves| - 1]), Run(def, moves).world.store;
            var (worker, move) := moves[|moves| - 1];
            var phase, stored := PhaseOf(s, worker), s.world.store[k].job.tasks[x];
            && k in after && x in after[k].job.tasks
            && after[k].job.tasks[x] == Overridden(s.world, worker, phase, move, k, x, stored)
            && (after[k].job.tasks[x] != stored ==> OverridesAs(phase, worker, x, stored))
  {
    var before := moves[..|moves| - 1];
    var (worker, move) := moves[|moves| - 1];
    var n := RunKeepsSystem(def, before);
    RunStaysOwned(def, before);
    var s := Run(def, before);
    assert WorkerOk(s, worker) && OwnedBy(s, worker);
    MoveGivesWay(def, s.world, n, worker, PhaseOf(s, worker), move, k, x);
  }
}
