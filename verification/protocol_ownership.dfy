/**
 * Who overrides whom, over every run: what a worker's copy may hold that differs from the state it
 * was read as, and what the store may hold by the time the copy is written.
 */
module ProtocolOwnership {
  import opened Base
  import opened Tasks
  import opened Cascades
  import opened Jobs
  import opened JobObject
  import opened Ownership
  import opened Protocol
  import opened ProtocolInvariant
  import opened ProtocolSteps
  import Sessions

  // ----- What a copy holds -----

  /** What a start of `worker` may replace: a task that is not final, never ran, or failed as its own. */
  ghost predicate MayBeStarted(worker: Id, a: Task) {
    !IsFinal(a) || a.owner.None? || (a.owner == Some(worker) && a.status.Failed?)
  }

  /** What a saved result of `worker` may bring back: its own version of a task that was started. */
  ghost predicate IsRetaken(worker: Id, a: Task, b: Task) {
    && b.owner == Some(worker) && a.owner.Some? && KeepsLimits(a, b)
    && (a.owner == Some(worker) ==> b.attempt == a.attempt)
    && (!IsFinal(a) || a.owner != Some(worker) || a.status.Failed? || Restored(b) == Restored(a))
  }

  /** A running task of `worker` and what its execution has made of it. */
  ghost predicate IsWorkedOn(worker: Id, a: Task, b: Task) {
    a.owner == Some(worker) == b.owner && a.status.Started? && KeepsLimits(a, b) && b.attempt == a.attempt
  }

  /** How task `x` of the worker's copy, `b`, may differ from what it was read as, `a`. */
  ghost predicate Stands(worker: Id, phase: Phase, x: Id, a: Task, b: Task) {
    match phase
    case SavingStart(_, task) =>
      if x == task then
        && b.status.Started? && b.owner == Some(worker) && MayBeStarted(worker, a)
        && KeepsLimits(a, b) && a.attempt <= b.attempt <= a.attempt + 1
      else Drifts(a, b)
    case Executing(_, task) =>
      && (x == task ==> a.owner == Some(worker))
      && (Drifts(a, b) || IsWorkedOn(worker, a, b))
    case SavingResult(_, _) => Drifts(a, b) || IsRetaken(worker, a, b)
    case _ => Drifts(a, b)
  }

  /** What the store holds of it meanwhile, `s`, if it still names the worker, is its own doing or drift. */
  ghost predicate Relies(worker: Id, phase: Phase, a: Task, b: Task, s: Task) {
    && (a.owner.Some? ==> s.owner.Some?) && KeepsLimits(a, s)
    && (s.owner == Some(worker) ==> Drifts(a, s) || (IsSaving(phase) && Drifts(b, s)))
  }

  ghost predicate StandsAt(worker: Id, phase: Phase, base: TaskMap, tasks: TaskMap, x: Id) {
    x in base ==> x in tasks && Stands(worker, phase, x, base[x], tasks[x])
  }

  ghost predicate ReliesAt(worker: Id, phase: Phase, base: TaskMap, tasks: TaskMap, stored: TaskMap, x: Id) {
    x in base ==> x in tasks && x in stored && Relies(worker, phase, base[x], tasks[x], stored[x])
  }

  ghost predicate AllStand(worker: Id, phase: Phase, base: TaskMap, tasks: TaskMap) {
    forall x {:trigger StandsAt(worker, phase, base, tasks, x)} :: StandsAt(worker, phase, base, tasks, x)
  }

  ghost predicate AllRely(worker: Id, phase: Phase, base: TaskMap, tasks: TaskMap, stored: TaskMap) {
    forall x {:trigger ReliesAt(worker, phase, base, tasks, stored, x)} :: ReliesAt(worker, phase, base, tasks, stored, x)
  }

  predicate HasBase(phase: Phase) {
    !phase.Idle? && !phase.SavingIteration?
  }

  ghost predicate NoneStarted(tasks: TaskMap) {
    forall x :: x in tasks ==> tasks[x].owner.None?
  }

  ghost predicate PhaseOwned(world: World, worker: Id, phase: Phase) {
    && (!phase.Idle? ==> AllOwned(phase.job.tasks))
    && (phase.SavingIteration? ==> NoneStarted(phase.job.tasks))
    && (HasBase(phase) ==>
          && phase.job.version.Some? && phase.job.version.value in world.written && phase.job.iterNum in world.store
          && AllStand(worker, phase, world.written[phase.job.version.value].tasks, phase.job.tasks)
          && AllRely(worker, phase, world.written[phase.job.version.value].tasks, phase.job.tasks,
                     world.store[phase.job.iterNum].job.tasks))
  }

  ghost predicate VersionOwned(world: World, v: nat)
    requires v in world.written
  {
    AllOwned(world.written[v].tasks)
  }

  ghost predicate WorldOwned(world: World) {
    forall v {:trigger VersionOwned(world, v)} :: v in world.written ==> VersionOwned(world, v)
  }

  /** A copy just read, or just written: nothing differs yet. */
  lemma FreshCopyIsOwned(world: World, worker: Id, phase: Phase)
    requires HasBase(phase) && phase.job.version.Some? && phase.job.version.value in world.written
    requires phase.job.iterNum in world.store && AllOwned(phase.job.tasks)
    requires world.written[phase.job.version.value].tasks == phase.job.tasks == world.store[phase.job.iterNum].job.tasks
    requires phase.Advancing? || phase.Open?
             || (phase.Executing? && phase.task in phase.job.tasks && phase.job.tasks[phase.task].owner == Some(worker))
    ensures PhaseOwned(world, worker, phase)
  {
    var tasks := phase.job.tasks;
    forall x ensures StandsAt(worker, phase, tasks, tasks, x) {
    }
    forall x ensures ReliesAt(worker, phase, tasks, tasks, tasks, x) {
    }
  }

  // ----- Looking for work -----

  /** A copy that drifted from what was read, still unsaved. */
  lemma DriftedCopyIsOwned(world: World, worker: Id, loaded: JobState, phase: Phase)
    requires PhaseOwned(world, worker, Open(loaded)) && IsLoaded(world, loaded)
    requires phase.SavingSettled? && phase.job.version == loaded.version && phase.job.iterNum == loaded.iterNum
    requires AllDrift(loaded.tasks, phase.job.tasks) && phase.job.tasks.Keys == loaded.tasks.Keys
    ensures PhaseOwned(world, worker, phase)
  {
    var base, stored := loaded.tasks, world.store[loaded.iterNum].job.tasks;
    DriftKeepsOwned(base, phase.job.tasks);
    forall x ensures StandsAt(worker, phase, base, phase.job.tasks, x) {
      assert DriftsAt(base, phase.job.tasks, x);
    }
    forall x ensures ReliesAt(worker, phase, base, phase.job.tasks, stored, x) {
      assert DriftsAt(base, phase.job.tasks, x);
      assert ReliesAt(worker, Open(loaded), base, loaded.tasks, stored, x);
    }
  }

  lemma StartedIsOwned(t: Task, worker: Id, now: Moment)
    requires Start(t, worker, now).Ok? && WellOwned(t)
    ensures var s := Start(t, worker, now).value;
            && s.status.Started? && s.owner == Some(worker) && WellOwned(s)
            && KeepsLimits(t, s) && t.attempt <= s.attempt <= t.attempt + 1
    ensures !IsFinal(t)
  {
  }

  lemma StartedCopyIsOwned(world: World, worker: Id, loaded: JobState, job: JobState, choice: Id, startAt: Moment)
    requires PhaseOwned(world, worker, Open(loaded)) && IsLoaded(world, loaded)
    requires job.version == loaded.version && job.iterNum == loaded.iterNum
    requires AllDrift(loaded.tasks, job.tasks) && job.tasks.Keys == loaded.tasks.Keys
    ensures PhaseOwned(world, worker, AfterStart(job, worker, choice, startAt))
  {
    if StartTask(job, choice, worker, startAt).Ok? {
      var started := StartTask(job, choice, worker, startAt).value;
      var phase := SavingStart(started, choice);
      var base, stored := loaded.tasks, world.store[loaded.iterNum].job.tasks;
      DriftKeepsOwned(base, job.tasks);
      assert OwnedAt(job.tasks, choice);
      StartedIsOwned(job.tasks[choice], worker, startAt);
      forall x ensures OwnedAt(started.tasks, x) {
        assert OwnedAt(job.tasks, x);
      }
      forall x ensures StandsAt(worker, phase, base, started.tasks, x) {
        assert DriftsAt(base, job.tasks, x);
        if x == choice {
          DriftFacts(base[x], job.tasks[x]);
        }
      }
      forall x ensures ReliesAt(worker, phase, base, started.tasks, stored, x) {
        assert ReliesAt(worker, Open(loaded), base, loaded.tasks, stored, x);
      }
    }
  }

  lemma PreparingDrifts(job: JobState, worker: Id, r: PickReadings)
    requires Prepared(job, worker, r).Ok?
    ensures var prepared := Prepared(job, worker, r).value;
            && AllDrift(job.tasks, prepared.tasks) && prepared.tasks.Keys == job.tasks.Keys
            && prepared.version == job.version && prepared.iterNum == job.iterNum
  {
    LifetimesDrift(job.tasks, r.failAt);
  }

  lemma PickIsOwned(world: World, worker: Id, job: JobState, r: PickReadings, choice: Id, startAt: Moment)
    requires PhaseOwned(world, worker, Open(job)) && IsLoaded(world, job)
    ensures PhaseOwned(world, worker, AfterPick(job, worker, r, choice, startAt))
  {
    if Prepared(job, worker, r).Ok? {
      var prepared := Prepared(job, worker, r).value;
      PreparingDrifts(job, worker, r);
      StartedCopyIsOwned(world, worker, job, prepared, choice, startAt);
      SettledPickIsOwned(world, worker, job, prepared, r, choice, startAt);
    }
  }

  lemma SettledPickIsOwned(world: World, worker: Id, job: JobState, prepared: JobState, r: PickReadings, choice: Id, startAt: Moment)
    requires PhaseOwned(world, worker, Open(job)) && IsLoaded(world, job)
    requires prepared.version == job.version && prepared.iterNum == job.iterNum
    requires AllDrift(job.tasks, prepared.tasks) && prepared.tasks.Keys == job.tasks.Keys
    ensures PhaseOwned(world, worker, AfterSettling(prepared, worker, r, choice, startAt))
  {
    var settled := TrySettle(prepared, worker, r.settleAt, r.closedAt).job;
    SettlingDrifts(prepared, worker, r.settleAt, r.closedAt);
    AllDriftOn(job.tasks, prepared.tasks, settled.tasks);
    StartedCopyIsOwned(world, worker, job, settled, choice, startAt);
    DriftedCopyIsOwned(world, worker, job, SavingSettled(settled));
  }

  // ----- Merging -----

  /** What a merged start finds: a task nobody started, or one of its own that runs or failed. */
  ghost predicate IsFoundByStart(worker: Id, s: Task) {
    if s.owner.None? then s.status.Todo? || s.status.Blocked? || IsPutOut(s)
    else s.owner == Some(worker) && (s.status.Started? || s.status.Failed?)
  }

  lemma StartFinds(worker: Id, phase: Phase, a: Task, b: Task, s: Task)
    requires IsSaving(phase) && b.status.Started? && b.owner == Some(worker) && MayBeStarted(worker, a)
    requires KeepsLimits(a, b) && a.attempt <= b.attempt <= a.attempt + 1
    requires Relies(worker, phase, a, b, s) && WellOwned(a) && WellOwned(b) && WellOwned(s) && CheckOwner(s, worker).Ok?
    ensures IsFoundByStart(worker, s) && MayBeStarted(worker, s)
    ensures KeepsLimits(s, b) && s.attempt <= b.attempt <= s.attempt + 1
    ensures s.owner == Some(worker) ==> Drifts(a, s) || Drifts(b, s)
  {
    if s.owner.Some? {
      if Drifts(a, s) {
        DriftFacts(a, s);
      } else {
        DriftFacts(b, s);
      }
    }
  }

  /** The two states of one iteration a merge brings together. */
  lemma MergeSharesIteration(world: World, n: nat, worker: Id, phase: Phase)
    requires WorldOk(world, n) && n in world.store && WorldOwned(world)
    requires PhaseOk(world, worker, phase) && (phase.SavingStart? || phase.SavingResult?)
    requires phase.task in world.store[n].job.tasks
    ensures phase.job.iterNum == n == world.store[n].job.iterNum
    ensures world.store[n].job.version.Some? && world.store[n].job.version.value in world.written
    ensures world.written[world.store[n].job.version.value] == world.store[n].job && AllOwned(world.store[n].job.tasks)
    ensures phase.job.version.value in world.written && AllOwned(world.written[phase.job.version.value].tasks)
  {
    SharedTaskSharesIteration(world, n, worker, phase.job, phase.task);
    NewestIsLoaded(world, n);
    assert VersionOwned(world, world.store[n].job.version.value);
    assert VersionOwned(world, phase.job.version.value);
  }

  lemma MergedStartDrifts(saved: JobState, ours: JobState, worker: Id, task: Id, now: Moment, later: Moment)
    requires MergePicked(saved, ours, worker, task, now, later).Ok?
    ensures var merged := MergePicked(saved, ours, worker, task, now, later).value;
            && merged.tasks.Keys == saved.tasks.Keys && merged.version == saved.version && merged.iterNum == saved.iterNum
            && merged.tasks[task] == ours.tasks[task]
            && forall x :: x in saved.tasks && x != task ==> Drifts(saved.tasks[x], merged.tasks[x])
  {
    var failed := FailByLifetime(saved.tasks, now);
    LifetimesDrift(saved.tasks, now);
    CascadeDrifts(failed, later);
    CascadeOnlyPutsOut(failed, later);
    AllDriftOn(saved.tasks, failed, Cascade(failed, later));
    forall x | x in saved.tasks ensures Drifts(saved.tasks[x], Cascade(failed, later)[x]) {
      assert DriftsAt(saved.tasks, Cascade(failed, later), x);
    }
  }

  /** What a merge leaves to be saved, on the state it merged into. */
  lemma MergedCopyIsOwned(world: World, worker: Id, phase: Phase, saved: JobState)
    requires HasBase(phase) && IsSaving(phase) && phase.job.version == saved.version && phase.job.iterNum == saved.iterNum
    requires saved.version.Some? && saved.version.value in world.written && world.written[saved.version.value] == saved
    requires saved.iterNum in world.store && world.store[saved.iterNum].job == saved
    requires AllOwned(phase.job.tasks) && AllStand(worker, phase, saved.tasks, phase.job.tasks)
    ensures PhaseOwned(world, worker, phase)
  {
    forall x ensures ReliesAt(worker, phase, saved.tasks, phase.job.tasks, saved.tasks, x) {
      assert StandsAt(worker, phase, saved.tasks, phase.job.tasks, x);
    }
  }

  lemma StartMergeFinds(world: World, n: nat, worker: Id, job: JobState, task: Id, now: Moment, later: Moment)
    requires WorldOk(world, n) && n in world.store && WorldOwned(world)
    requires PhaseOk(world, worker, SavingStart(job, task)) && PhaseOwned(world, worker, SavingStart(job, task))
    requires MergePicked(world.store[n].job, job, worker, task, now, later).Ok?
    ensures task in world.store[n].job.tasks
    ensures IsFoundByStart(worker, world.store[n].job.tasks[task]) && MayBeStarted(worker, world.store[n].job.tasks[task])
    ensures task in job.tasks && job.tasks[task].status.Started? && job.tasks[task].owner == Some(worker)
    ensures var s, b := world.store[n].job.tasks[task], job.tasks[task];
            && KeepsLimits(s, b) && s.attempt <= b.attempt <= s.attempt + 1
            && (s.owner == Some(worker) ==> Drifts(world.written[job.version.value].tasks[task], s) || Drifts(b, s))
  {
    var phase := SavingStart(job, task);
    MergeSharesIteration(world, n, worker, phase);
    var base, stored := world.written[job.version.value].tasks, world.store[n].job.tasks;
    assert task in base;
    assert StandsAt(worker, phase, base, job.tasks, task) && ReliesAt(worker, phase, base, job.tasks, stored, task);
    assert OwnedAt(base, task) && OwnedAt(stored, task) && OwnedAt(job.tasks, task);
    StartFinds(worker, phase, base[task], job.tasks[task], stored[task]);
  }

  lemma StartMergeIsOwned(world: World, n: nat, worker: Id, job: JobState, task: Id, now: Moment, later: Moment)
    requires WorldOk(world, n) && n in world.store && WorldOwned(world)
    requires PhaseOk(world, worker, SavingStart(job, task)) && PhaseOwned(world, worker, SavingStart(job, task))
    requires MergePicked(world.store[n].job, job, worker, task, now, later).Ok?
    ensures PhaseOwned(world, worker, SavingStart(MergePicked(world.store[n].job, job, worker, task, now, later).value, task))
  {
    var saved := world.store[n].job;
    var merged := MergePicked(saved, job, worker, task, now, later).value;
    StartMergeFinds(world, n, worker, job, task, now, later);
    MergeSharesIteration(world, n, worker, SavingStart(job, task));
    MergedStartDrifts(saved, job, worker, task, now, later);
    var phase := SavingStart(merged, task);
    forall x ensures StandsAt(worker, phase, saved.tasks, merged.tasks, x) && OwnedAt(merged.tasks, x) {
      assert OwnedAt(saved.tasks, x) && OwnedAt(job.tasks, x);
      if x in saved.tasks && x != task {
        DriftFacts(saved.tasks[x], merged.tasks[x]);
      }
    }
    MergedCopyIsOwned(world, worker, phase, saved);
  }

  /** What a merged result brings back of one of its worker's tasks, by the time it is settled. */
  lemma ResultRetakes(worker: Id, phase: Phase, a: Task, b: Task, s: Task, carried: Task)
    requires phase.SavingResult? && (Drifts(a, b) || IsRetaken(worker, a, b)) && b.owner == Some(worker)
    requires Relies(worker, phase, a, b, s) && WellOwned(a) && WellOwned(b) && WellOwned(s) && Drifts(b, carried)
    ensures IsRetaken(worker, s, carried)
  {
    DriftFacts(b, carried);
    if Drifts(a, b) {
      DriftFacts(a, b);
    }
    if IsFinal(s) && s.owner == Some(worker) && !s.status.Failed? {
      if Drifts(b, s) {
        DriftFacts(b, s);
      } else {
        DriftFacts(a, s);
      }
    }
  }

  lemma CarriedTask(saved: JobState, job: JobState, worker: Id, now: Moment, x: Id)
    requires x in saved.tasks
    ensures var carried := CarriedOver(saved, job, worker, now).tasks;
            x in carried && carried[x] == if x in job.tasks && job.tasks[x].owner == Some(worker) then job.tasks[x] else saved.tasks[x]
  {
  }

  lemma ResultMergeStands(world: World, n: nat, worker: Id, job: JobState, task: Id, now: Moment, after: TaskMap, x: Id)
    requires WorldOk(world, n) && n in world.store && WorldOwned(world) && task in world.store[n].job.tasks
    requires PhaseOk(world, worker, SavingResult(job, task)) && PhaseOwned(world, worker, SavingResult(job, task))
    requires AllDrift(CarriedOver(world.store[n].job, job, worker, now).tasks, after)
    ensures x in world.store[n].job.tasks ==>
              x in after && (Drifts(world.store[n].job.tasks[x], after[x]) || IsRetaken(worker, world.store[n].job.tasks[x], after[x]))
  {
    var phase, saved := SavingResult(job, task), world.store[n].job;
    MergeSharesIteration(world, n, worker, phase);
    var base, carried := world.written[job.version.value], CarriedOver(saved, job, worker, now).tasks;
    if x in saved.tasks {
      CarriedTask(saved, job, worker, now, x);
      assert DriftsAt(carried, after, x);
      if x in job.tasks && job.tasks[x].owner == Some(worker) {
        assert IsGained(base, job, worker, x);
        assert StandsAt(worker, phase, base.tasks, job.tasks, x) && ReliesAt(worker, phase, base.tasks, job.tasks, saved.tasks, x);
        assert OwnedAt(base.tasks, x) && OwnedAt(job.tasks, x) && OwnedAt(saved.tasks, x);
        ResultRetakes(worker, phase, base.tasks[x], job.tasks[x], saved.tasks[x], after[x]);
      }
    }
  }

  lemma CarriedIsOwned(saved: JobState, job: JobState, worker: Id, now: Moment)
    requires AllOwned(saved.tasks) && AllOwned(job.tasks)
    ensures AllOwned(CarriedOver(saved, job, worker, now).tasks)
  {
    forall x ensures OwnedAt(CarriedOver(saved, job, worker, now).tasks, x) {
      assert OwnedAt(saved.tasks, x) && OwnedAt(job.tasks, x);
    }
  }

  lemma ResultMergeIsOwned(world: World, n: nat, worker: Id, job: JobState, task: Id, now: Moment, later: Moment)
    requires WorldOk(world, n) && n in world.store && WorldOwned(world) && task in world.store[n].job.tasks
    requires PhaseOk(world, worker, SavingResult(job, task)) && PhaseOwned(world, worker, SavingResult(job, task))
    ensures var settled := TrySettle(CarriedOver(world.store[n].job, job, worker, now), worker, now, later).job;
            PhaseOwned(world, worker, SavingResult(settled, task))
  {
    var saved := world.store[n].job;
    MergeSharesIteration(world, n, worker, SavingResult(job, task));
    var carried := CarriedOver(saved, job, worker, now);
    CarriedIsOwned(saved, job, worker, now);
    SettlingDrifts(carried, worker, now, later);
    var settled := TrySettle(carried, worker, now, later).job;
    DriftKeepsOwned(carried.tasks, settled.tasks);
    var phase := SavingResult(settled, task);
    forall x ensures StandsAt(worker, phase, saved.tasks, settled.tasks, x) {
      ResultMergeStands(world, n, worker, job, task, now, settled.tasks, x);
    }
    MergedCopyIsOwned(world, worker, phase, saved);
  }

  // ----- Executing -----

  /** One task of an execution's copy and what a call makes of it: nothing, or what its owner may do. */
  ghost predicate ActsOn(worker: Id, b: Task, c: Task) {
    c == b || (IsWorkedOn(worker, b, c) && WellOwned(c))
  }

  /** A call keeps the tasks read from storage and touches only running tasks of its worker. */
  ghost predicate ActsWithin(worker: Id, base: TaskMap, tasks: TaskMap, after: TaskMap) {
    && (forall x :: x in base && x in tasks ==> x in after && ActsOn(worker, tasks[x], after[x]))
    && (forall x :: x in after && x !in tasks ==> WellOwned(after[x]))
    && (forall x :: x in after && x in tasks && x !in base ==> ActsOn(worker, tasks[x], after[x]))
  }

  lemma CompletingActs(job: JobState, id: Id, output: string, worker: Id, now: Moment)
    requires AllOwned(job.tasks) && CompleteTask(job, id, output, worker, now).Ok?
    ensures ActsOn(worker, job.tasks[id], CompleteTask(job, id, output, worker, now).value.tasks[id])
  {
    assert OwnedAt(job.tasks, id);
  }

  lemma FailingActs(base: TaskMap, job: JobState, id: Id, reason: Reason, retry: TaskRetry, worker: Id, now: Moment)
    requires AllOwned(job.tasks) && FailTask(job, id, reason, retry, worker, now).Ok?
    requires forall x :: x in base && x in job.tasks ==> job.tasks[x].createdByTask.None?
    ensures ActsWithin(worker, base, job.tasks, FailTask(job, id, reason, retry, worker, now).value.tasks)
  {
    assert OwnedAt(job.tasks, id);
  }

  lemma SkippingActs(job: JobState, id: Id, reason: Reason, worker: Id, now: Moment)
    requires AllOwned(job.tasks) && SkipTaskByExecutor(job, id, reason, worker, now).Ok? && job.tasks[id].owner == Some(worker)
    ensures ActsOn(worker, job.tasks[id], SkipTaskByExecutor(job, id, reason, worker, now).value.tasks[id])
  {
    assert OwnedAt(job.tasks, id);
  }

  lemma CallActs(base: TaskMap, job: JobState, call: Sessions.Call, worker: Id, task: Id)
    requires AllOwned(job.tasks) && Sessions.Perform(job, call, worker, task).Ok?
    requires forall x :: x in base && x in job.tasks ==> job.tasks[x].createdByTask.None?
    requires task in job.tasks && job.tasks[task].owner == Some(worker)
    requires call.AddCall? ==> call.minted !in job.tasks
    ensures ActsWithin(worker, base, job.tasks, Sessions.Perform(job, call, worker, task).value.tasks)
  {
    match call
    case CompleteCall(id, output, now) => CompletingActs(job, id, output, worker, now);
    case FailCall(id, reason, retry, now) => FailingActs(base, job, id, reason, retry, worker, now);
    case SkipBranchCall(reason, now) => SkippingActs(job, task, reason, worker, now);
    case AddCall(_, _) =>
    case SetNextStartCall(_) =>
    case CloseCall =>
  }

  lemma OutcomeActs(base: TaskMap, job: JobState, task: Id, worker: Id, outcome: Sessions.ExecutorOutcome, now: Moment, later: Moment)
    requires AllOwned(job.tasks) && Sessions.ApplyOutcome(job, task, worker, outcome, now, later).Ok?
    requires forall x :: x in base && x in job.tasks ==> job.tasks[x].createdByTask.None?
    requires task in job.tasks && job.tasks[task].owner == Some(worker)
    ensures ActsWithin(worker, base, job.tasks, Sessions.ApplyOutcome(job, task, worker, outcome, now, later).value.tasks)
  {
    if Sessions.AcceptOutcome(job, task, worker, outcome, now).Ok? {
      match outcome
      case Returned(output) => CompletingActs(job, task, output, worker, now);
      case TerminallyFailed(reason) => FailingActs(base, job, task, reason, TaskRetry.Never, worker, now);
      case SkippedBranch(reason) => SkippingActs(job, task, reason, worker, now);
      case Deferred =>
    } else if !IsResolved(job.tasks[task]) {
      FailingActs(base, job, task, Sessions.FailureReason(outcome), WhileBudgetLasts, worker, later);
    }
  }

  /** An execution's copy after a call. */
  lemma ActingKeepsOwned(world: World, worker: Id, job: JobState, task: Id, after: JobState)
    requires PhaseOwned(world, worker, Executing(job, task))
    requires after.version == job.version && after.iterNum == job.iterNum
    requires ActsWithin(worker, world.written[job.version.value].tasks, job.tasks, after.tasks)
    ensures PhaseOwned(world, worker, Executing(after, task))
  {
    var base, stored := world.written[job.version.value].tasks, world.store[job.iterNum].job.tasks;
    var phase := Executing(after, task);
    forall x ensures OwnedAt(after.tasks, x) {
      assert OwnedAt(job.tasks, x);
    }
    forall x ensures StandsAt(worker, phase, base, after.tasks, x) && ReliesAt(worker, phase, base, after.tasks, stored, x) {
      assert StandsAt(worker, Executing(job, task), base, job.tasks, x);
      assert ReliesAt(worker, Executing(job, task), base, job.tasks, stored, x);
      if x in base {
        ActedStands(worker, base[x], job.tasks[x], after.tasks[x]);
      }
    }
  }

  lemma ActedStands(worker: Id, a: Task, b: Task, c: Task)
    requires Drifts(a, b) || IsWorkedOn(worker, a, b)
    requires ActsOn(worker, b, c)
    ensures Drifts(a, c) || IsWorkedOn(worker, a, c)
  {
    if Drifts(a, b) {
      DriftFacts(a, b);
    }
  }

  /** An execution's copy, settled ahead of the write that saves it. */
  lemma FinishedCopyIsOwned(world: World, worker: Id, job: JobState, task: Id, now: Moment, closedAt: Moment)
    requires PhaseOwned(world, worker, Executing(job, task))
    ensures PhaseOwned(world, worker, SavingResult(TrySettle(job, worker, now, closedAt).job, task))
  {
    var base, stored := world.written[job.version.value].tasks, world.store[job.iterNum].job.tasks;
    SettlingDrifts(job, worker, now, closedAt);
    var settled := TrySettle(job, worker, now, closedAt).job;
    DriftKeepsOwned(job.tasks, settled.tasks);
    var phase := SavingResult(settled, task);
    forall x ensures StandsAt(worker, phase, base, settled.tasks, x) && ReliesAt(worker, phase, base, settled.tasks, stored, x) {
      assert StandsAt(worker, Executing(job, task), base, job.tasks, x);
      assert ReliesAt(worker, Executing(job, task), base, job.tasks, stored, x);
      assert DriftsAt(job.tasks, settled.tasks, x);
      if x in base {
        SettledStands(worker, base[x], job.tasks[x], settled.tasks[x]);
      }
    }
  }

  lemma SettledStands(worker: Id, a: Task, b: Task, c: Task)
    requires Drifts(a, b) || IsWorkedOn(worker, a, b)
    requires Drifts(b, c)
    ensures Drifts(a, c) || IsRetaken(worker, a, c)
  {
    DriftFacts(b, c);
    if Drifts(a, b) {
      DriftsOn(a, b, c);
    }
  }

  // ----- Writing -----

  lemma PersistedIsOwned(tasks: TaskMap, persisted: TaskMap)
    requires AllOwned(tasks) && persisted == map x | x in tasks :: Restored(tasks[x])
    ensures AllOwned(persisted)
  {
    forall x ensures OwnedAt(persisted, x) {
      assert OwnedAt(tasks, x);
    }
  }

  lemma WriteKeepsWorldOwned(world: World, job: JobState)
    requires WorldOwned(world) && AllOwned(job.tasks)
    ensures WorldOwned(Written(world, job))
  {
    var after := Written(world, job);
    PersistedIsOwned(job.tasks, after.written[world.nextVersion].tasks);
    forall v | v in after.written ensures VersionOwned(after, v) {
      if v != world.nextVersion {
        assert VersionOwned(world, v);
      }
    }
  }

  /** One task another worker relies on, before and after a write that puts `b` in place of `s`. */
  lemma ReliesStill(worker: Id, phase: Phase, a: Task, b: Task, s: Task, writer: Id, written: Phase, x: Id, c: Task)
    requires Relies(worker, phase, a, b, s) && worker != writer && IsSaving(written)
    requires Stands(writer, written, x, s, c)
    ensures Relies(worker, phase, a, b, Restored(c))
  {
    if Drifts(s, c) {
      DriftFacts(s, c);
      assert Drifts(s, Restored(c));
      if s.owner == Some(worker) {
        if Drifts(a, s) {
          DriftsOn(a, s, Restored(c));
        } else {
          DriftsOn(b, s, Restored(c));
        }
      }
    }
  }

  lemma WriteKeepsOthers(world: World, n: nat, writer: Id, written: Phase, worker: Id, phase: Phase)
    requires WorldOk(world, n) && PhaseOk(world, writer, written)
    requires PhaseOwned(world, writer, written) && PhaseOwned(world, worker, phase)
    requires IsSaving(written) && IsWriteAllowed(world, written.job) && worker != writer
    ensures PhaseOwned(Written(world, written.job), worker, phase)
  {
    var after := Written(world, written.job);
    if HasBase(phase) && phase.job.iterNum == written.job.iterNum {
      assert StoredOk(world, n, written.job.iterNum);
      assert WrittenOk(world, phase.job.version.value);
      var base, stored, stored' := world.written[phase.job.version.value].tasks, world.store[phase.job.iterNum].job.tasks,
        after.store[phase.job.iterNum].job.tasks;
      assert HasBase(written) && world.written[written.job.version.value].tasks == stored;
      forall x ensures ReliesAt(worker, phase, base, phase.job.tasks, stored', x) {
        assert ReliesAt(worker, phase, base, phase.job.tasks, stored, x);
        if x in base {
          assert StandsAt(writer, written, stored, written.job.tasks, x);
          ReliesStill(worker, phase, base[x], phase.job.tasks[x], stored[x], writer, written, x, written.job.tasks[x]);
        }
      }
    }
  }

  lemma UnacknowledgedIsOwned(world: World, n: nat, worker: Id, phase: Phase)
    requires WorldOk(world, n) && PhaseOwned(world, worker, phase) && IsSaving(phase) && IsWriteAllowed(world, phase.job)
    ensures PhaseOwned(Written(world, phase.job), worker, phase)
  {
    var after := Written(world, phase.job);
    if HasBase(phase) {
      var base, stored := world.written[phase.job.version.value].tasks, after.store[phase.job.iterNum].job.tasks;
      assert WrittenOk(world, phase.job.version.value);
      forall x ensures ReliesAt(worker, phase, base, phase.job.tasks, stored, x) {
        assert StandsAt(worker, phase, base, phase.job.tasks, x);
        if x in base {
          assert Drifts(phase.job.tasks[x], stored[x]);
          if Drifts(base[x], phase.job.tasks[x]) {
            DriftFacts(base[x], phase.job.tasks[x]);
          }
        }
      }
    }
  }

  lemma AcknowledgedIsOwned(world: World, worker: Id, phase: Phase)
    requires PhaseOk(world, worker, phase) && PhaseOwned(world, worker, phase) && IsSaving(phase)
    ensures PhaseOwned(Written(world, phase.job), worker, AfterWrite(phase, world.nextVersion))
  {
    var after, phase' := Written(world, phase.job), AfterWrite(phase, world.nextVersion);
    if phase.SavingIteration? || phase.SavingStart? {
      assert after.written[world.nextVersion].tasks == phase.job.tasks;
      if phase.SavingStart? {
        assert StandsAt(worker, phase, world.written[phase.job.version.value].tasks, phase.job.tasks, phase.task);
      }
      FreshCopyIsOwned(after, worker, phase');
    }
  }
}
