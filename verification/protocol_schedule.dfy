/**
 * The calendar of every run: no iteration beyond the budget, and none started before the one
 * before it allows.
 */
module ProtocolSchedule {
  import opened Base
  import opened Settling
  import opened Jobs
  import opened JobObject
  import opened Planning
  import opened Protocol
  import opened ProtocolInvariant
  import opened ProtocolRuns
  import Sessions

  /** The job, the number, the start and the settings of an iteration, which nothing changes once it is planned. */
  ghost predicate SameCalendar(a: JobState, b: JobState) {
    a.id == b.id && a.iterNum == b.iterNum && a.startedAt == b.startedAt && a.settings == b.settings
  }

  /** The iteration is within the budget, and started once the closed one before it was due to be followed. */
  ghost predicate IsTimely(def: JobDefinition, world: World, job: JobState) {
    && job.settings == def.settings
    && (1 < job.iterNum ==>
          && job.iterNum - 1 in world.store
          && var previous := world.store[job.iterNum - 1].job;
          && IsProcessed(previous) && previous.iterNum == job.iterNum - 1 && previous.settings == def.settings
          && NextIterationStartAt(previous).Some? && NextIterationStartAt(previous).value <= job.startedAt)
  }

  ghost predicate PhaseTimely(def: JobDefinition, world: World, phase: Phase) {
    phase.Idle? || IsTimely(def, world, phase.job)
  }

  ghost predicate StoreTimely(def: JobDefinition, world: World) {
    forall k {:trigger world.store[k]} :: k in world.store ==> IsTimely(def, world, world.store[k].job)
  }

  lemma TimelyStays(def: JobDefinition, a: World, b: World, job: JobState)
    requires IsTimely(def, a, job) && Extends(a, b)
    ensures IsTimely(def, b, job)
  {
  }

  // ----- What keeps the calendar -----

  lemma SettlingKeepsCalendar(job: JobState, worker: Id, now: Moment, closedAt: Moment)
    ensures SameCalendar(job, TrySettle(job, worker, now, closedAt).job)
  {
    var derived := job.(tasks := Derived(job.tasks, now));
    assert SameCalendar(derived, CloseIfSettled(derived, worker, now, closedAt).job);
  }

  lemma PickKeepsCalendar(job: JobState, worker: Id, r: PickReadings, choice: Id, startAt: Moment)
    ensures var after := AfterPick(job, worker, r, choice, startAt);
            after.Idle? || SameCalendar(job, after.job)
  {
    if Prepared(job, worker, r).Ok? {
      var prepared := Prepared(job, worker, r).value;
      assert SameCalendar(job, prepared);
      StartKeepsCalendar(prepared, worker, choice, startAt);
      SettledPickKeepsCalendar(prepared, worker, r, choice, startAt);
    }
  }

  lemma SettledPickKeepsCalendar(prepared: JobState, worker: Id, r: PickReadings, choice: Id, startAt: Moment)
    ensures var after := AfterSettling(prepared, worker, r, choice, startAt);
            after.Idle? || SameCalendar(prepared, after.job)
  {
    SettlingKeepsCalendar(prepared, worker, r.settleAt, r.closedAt);
    StartKeepsCalendar(TrySettle(prepared, worker, r.settleAt, r.closedAt).job, worker, choice, startAt);
  }

  lemma StartKeepsCalendar(job: JobState, worker: Id, choice: Id, startAt: Moment)
    ensures var after := AfterStart(job, worker, choice, startAt);
            after.Idle? || SameCalendar(job, after.job)
  {
  }

  lemma MergeKeepsCalendar(saved: JobState, ours: JobState, worker: Id, task: Id, now: Moment, later: Moment)
    ensures var picked := MergePicked(saved, ours, worker, task, now, later);
            picked.Ok? ==> SameCalendar(saved, picked.value)
    ensures SameCalendar(saved, MergeProcessed(saved, ours, worker, task, now, later).job)
  {
    SettlingKeepsCalendar(CarriedOver(saved, ours, worker, now), worker, now, later);
  }

  lemma ConflictKeepsCalendar(phase: Phase, worker: Id, saved: JobState, now: Moment, later: Moment)
    requires IsSaving(phase)
    ensures var after := AfterConflict(phase, worker, saved, now, later);
            after.Idle? || SameCalendar(saved, after.job)
  {
    if phase.SavingStart? {
      MergeKeepsCalendar(saved, phase.job, worker, phase.task, now, later);
    } else if phase.SavingResult? {
      MergeKeepsCalendar(saved, phase.job, worker, phase.task, now, later);
    }
  }

  lemma ExecutionKeepsCalendar(job: JobState, worker: Id, task: Id, call: Sessions.Call,
                               outcome: Sessions.ExecutorOutcome, now: Moment, later: Moment)
    ensures var performed := Sessions.Perform(job, call, worker, task);
            performed.Ok? ==> SameCalendar(job, performed.value)
    ensures var applied := Sessions.ApplyOutcome(job, task, worker, outcome, now, later);
            applied.Ok? ==> SameCalendar(job, applied.value)
  {
  }

  // ----- The steps -----

  lemma PlanningIsTimely(def: JobDefinition, world: World, n: nat, worker: Id, phase: Phase,
                         jobId: Id, ids: seq<Id>, now: Moment)
    requires IsLegal(def) && WorldOk(world, n) && StoreTimely(def, world)
    requires PhaseOk(world, worker, phase) && PhaseTimely(def, world, phase)
    ensures PhaseTimely(def, world, ActCreate(def, world, worker, phase, jobId, ids, now).1)
    ensures PhaseTimely(def, world, ActAdvance(def, world, worker, phase, ids, now).1)
  {
    if phase.Advancing? && IsProcessed(phase.job) {
      assert WrittenOk(world, phase.job.version.value);
    }
  }

  lemma ExecutionIsTimely(def: JobDefinition, world: World, worker: Id, phase: Phase, call: Sessions.Call,
                          outcome: Sessions.ExecutorOutcome, now: Moment, later: Moment, settleAt: Moment, closedAt: Moment)
    requires PhaseTimely(def, world, phase)
    ensures PhaseTimely(def, world, ActCall(world, worker, phase, call).1)
    ensures PhaseTimely(def, world, ActFinish(world, worker, phase, outcome, now, later, settleAt, closedAt).1)
  {
    if phase.Executing? {
      ExecutionKeepsCalendar(phase.job, worker, phase.task, call, outcome, now, later);
      var applied := Sessions.ApplyOutcome(phase.job, phase.task, worker, outcome, now, later);
      if applied.Ok? {
        SettlingKeepsCalendar(applied.value, worker, settleAt, closedAt);
      }
    }
  }

  lemma SameCalendarIsTimely(def: JobDefinition, world: World, job: JobState, phase: Phase)
    requires IsTimely(def, world, job) && (phase.Idle? || SameCalendar(job, phase.job))
    ensures PhaseTimely(def, world, phase)
  {
  }

  lemma MergingIsTimely(def: JobDefinition, world: World, worker: Id, phase: Phase, now: Moment, later: Moment)
    requires StoreTimely(def, world) && PhaseTimely(def, world, phase)
    ensures PhaseTimely(def, world, ActMerge(world, worker, phase, now, later).1)
  {
    if IsSaving(phase) && !IsWriteAllowed(world, phase.job) && Newest(world.store) in world.store && now <= later {
      var saved := world.store[Newest(world.store)].job;
      ConflictKeepsCalendar(phase, worker, saved, now, later);
      SameCalendarIsTimely(def, world, saved, AfterConflict(phase, worker, saved, now, later));
    }
  }

  lemma PickingIsTimely(def: JobDefinition, world: World, worker: Id, phase: Phase, r: PickReadings, choice: Id, startAt: Moment)
    requires PhaseTimely(def, world, phase)
    ensures PhaseTimely(def, world, ActPick(world, worker, phase, r, choice, startAt).1)
  {
    if phase.Open? {
      PickKeepsCalendar(phase.job, worker, r, choice, startAt);
      SameCalendarIsTimely(def, world, phase.job, AfterPick(phase.job, worker, r, choice, startAt));
    }
  }

  lemma StoringIsTimely(def: JobDefinition, world: World, phase: Phase, isAcknowledged: bool)
    requires StoreTimely(def, world) && PhaseTimely(def, world, phase)
    ensures PhaseTimely(def, world, ActRead(world, phase).1)
    ensures PhaseTimely(def, world, ActWrite(world, phase, isAcknowledged).1)
  {
  }

  lemma MoveIsTimely(def: JobDefinition, world: World, n: nat, worker: Id, phase: Phase, move: Move)
    requires IsLegal(def) && WorldOk(world, n) && StoreTimely(def, world)
    requires PhaseOk(world, worker, phase) && PhaseTimely(def, world, phase)
    ensures PhaseTimely(def, world, Act(def, world, worker, phase, move).1)
  {
    match move
    case Create(jobId, ids, now) => PlanningIsTimely(def, world, n, worker, phase, jobId, ids, now);
    case Advance(ids, now) => PlanningIsTimely(def, world, n, worker, phase, 0, ids, now);
    case Pick(r, choice, startAt) => PickingIsTimely(def, world, worker, phase, r, choice, startAt);
    case Read => StoringIsTimely(def, world, phase, true);
    case Write(isAcknowledged) => StoringIsTimely(def, world, phase, isAcknowledged);
    case Merge(now, later) => MergingIsTimely(def, world, worker, phase, now, later);
    case Call(call) => ExecutionIsTimely(def, world, worker, phase, call, Sessions.Deferred, 0, 0, 0, 0);
    case Finish(outcome, now, later, settleAt, closedAt) =>
      ExecutionIsTimely(def, world, worker, phase, Sessions.CloseCall, outcome, now, later, settleAt, closedAt);
    case Stop =>
  }

  ghost predicate RunTimely(def: JobDefinition, s: System) {
    && StoreTimely(def, s.world)
    && (forall worker {:trigger PhaseOf(s, worker)} :: PhaseTimely(def, s.world, PhaseOf(s, worker)))
  }

  /** What is stored as iteration `k` was stored before, or is what `phase` holds. */
  ghost predicate IsSourced(world: World, phase: Phase, after: World, k: nat) {
    k in after.store ==>
      || (k in world.store && after.store[k] == world.store[k])
      || (!phase.Idle? && SameCalendar(phase.job, after.store[k].job))
  }

  /** Only a write touches the store, and it stores what the worker holds. */
  lemma OnlyWritesStore(def: JobDefinition, world: World, worker: Id, phase: Phase, move: Move, k: nat)
    requires IsLegal(def)
    ensures IsSourced(world, phase, Act(def, world, worker, phase, move).0, k)
  {
  }

  lemma StoreStaysTimely(def: JobDefinition, world: World, phase: Phase, after: World)
    requires StoreTimely(def, world) && PhaseTimely(def, world, phase) && Extends(world, after)
    requires forall k {:trigger IsSourced(world, phase, after, k)} :: IsSourced(world, phase, after, k)
    ensures StoreTimely(def, after)
  {
    forall k | k in after.store ensures IsTimely(def, after, after.store[k].job) {
      assert IsSourced(world, phase, after, k);
      var source := if k in world.store && after.store[k] == world.store[k] then world.store[k].job else phase.job;
      TimelyStays(def, world, after, source);
    }
  }

  lemma {:induction false} RunStaysTimely(def: JobDefinition, moves: seq<(Id, Move)>)
    requires IsLegal(def)
    ensures RunTimely(def, Run(def, moves))
  {
    if moves != [] {
      var before := moves[..|moves| - 1];
      var (worker, move) := moves[|moves| - 1];
      RunStaysTimely(def, before);
      var n := RunKeepsSystem(def, before);
      var s, s' := Run(def, before), Run(def, moves);
      var n' := StepKeepsSystem(def, s, n, worker, move);
      assert WorkerOk(s, worker);
      MoveIsTimely(def, s.world, n, worker, PhaseOf(s, worker), move);
      forall k ensures IsSourced(s.world, PhaseOf(s, worker), s'.world, k) {
        OnlyWritesStore(def, s.world, worker, PhaseOf(s, worker), move, k);
      }
      StoreStaysTimely(def, s.world, PhaseOf(s, worker), s'.world);
      forall other ensures PhaseTimely(def, s'.world, PhaseOf(s', other)) {
        var phase := if other == worker then Act(def, s.world, worker, PhaseOf(s, worker), move).1 else PhaseOf(s, other);
        assert PhaseOf(s', other) == phase && PhaseTimely(def, s.world, phase);
        if !phase.Idle? {
          TimelyStays(def, s.world, s'.world, phase.job);
        }
      }
    }
  }

  /**
   * Whatever the workers do: no stored iteration is numbered past the budget, save the first, which
   * is created without asking, and every later one was started at or after the moment the stored,
   * closed iteration before it says the next one is due.
   */
  lemma {:induction false} IterationsKeepTheirCalendar(def: JobDefinition, moves: seq<(Id, Move)>, k: nat)
    requires IsLegal(def)
    requires k in Run(def, moves).world.store && 1 < k
    ensures var store := Run(def, moves).world.store;
            && (def.settings.maxIterations.Some? ==> k <= def.settings.maxIterations.value)
            && k - 1 in store
            && NextIterationStartAt(store[k - 1].job).Some?
            && NextIterationStartAt(store[k - 1].job).value <= store[k].job.startedAt
  {
    var n := RunKeepsSystem(def, moves);
    RunStaysTimely(def, moves);
    assert StoredOk(Run(def, moves).world, n, k);
  }
}
