/**
 * Progress: from every reachable state, a lone worker whose writes are answered closes the newest
 * iteration in a number of moves bounded by its tasks, once the clock is past their lifetimes.
 */
module ProtocolProgress {
  import opened Base
  import opened Tasks
  import opened Cascades
  import opened Settling
  import opened Jobs
  import opened JobObject
  import opened Planning
  import opened Ownership
  import opened Protocol
  import opened ProtocolInvariant
  import opened ProtocolSteps
  import opened ProtocolJobs
  import opened ProtocolSoundness
  import opened ProtocolOwnership
  import opened ProtocolRuns
  import opened ProtocolOverrides
  import opened ProtocolStretches
  import Sessions

  // ----- What is left to do -----

  predicate IsUnstarted(t: Task) {
    t.status.Todo? || t.status.Blocked?
  }

  function Unstarted(tasks: TaskMap): set<Id> {
    set x | x in tasks && IsUnstarted(tasks[x])
  }

  /** Every task ever started and not resolved has outlived its lifetime, and limits can still be counted from `t`. */
  ghost predicate IsLate(tasks: TaskMap, t: Moment) {
    forall x :: x in tasks ==>
      && (tasks[x].status.Started? || tasks[x].status.Failed? ==>
            tasks[x].lifetimeDeadlineAt.Some? && tasks[x].lifetimeDeadlineAt.value < t)
      && t + tasks[x].maxLifetime <= MAX_MOMENT && t + tasks[x].timeout <= MAX_MOMENT
  }

  /** Nothing runs, and what failed failed for good. */
  ghost predicate IsQuiet(tasks: TaskMap, t: Moment) {
    forall x :: x in tasks ==> !tasks[x].status.Started? && (tasks[x].status.Failed? ==> IsTerminallyFailed(tasks[x], t))
  }

  lemma LateDrifts(a: TaskMap, b: TaskMap, t: Moment)
    requires AllDrift(a, b) && b.Keys == a.Keys && IsLate(a, t)
    ensures IsLate(b, t) && Unstarted(b) <= Unstarted(a)
    ensures IsQuiet(a, t) ==> IsQuiet(b, t)
  {
    forall x | x in b
      ensures x in a && Drifts(a[x], b[x])
    {
      assert DriftsAt(a, b, x);
    }
  }

  lemma LifetimesQuieten(tasks: TaskMap, t: Moment)
    requires IsLate(tasks, t)
    ensures var failed := FailByLifetime(tasks, t);
            AllDrift(tasks, failed) && failed.Keys == tasks.Keys && IsLate(failed, t) && IsQuiet(failed, t)
            && Unstarted(failed) <= Unstarted(tasks)
  {
    LifetimesDrift(tasks, t);
    LateDrifts(tasks, FailByLifetime(tasks, t), t);
  }

  /** In a quiet iteration exactly the released tasks may be started, and only they keep it open. */
  lemma QuietPicks(tasks: TaskMap, t: Moment, x: Id)
    requires IsQuiet(tasks, t) && x in tasks
    ensures CheckAvailability(tasks[x], t).Pickable? <==> tasks[x].status.Todo?
    ensures KeepsOpen(tasks[x], t) <==> tasks[x].status.Todo?
  {
  }

  /** A task of the iteration as it was looked at, started by `worker` at `t`. */
  ghost predicate IsStartedAs(job: JobState, looked: TaskMap, worker: Id, x: Id, t: Moment, started: JobState) {
    && AllDrift(job.tasks, looked) && looked.Keys == job.tasks.Keys && IsLate(looked, t) && IsQuiet(looked, t)
    && x in looked && looked[x].status.Todo? && looked[x].lifetimeDeadlineAt.None? && Start(looked[x], worker, t).Ok?
    && started.tasks == looked[x := Start(looked[x], worker, t).value]
    && started.version == job.version && started.iterNum == job.iterNum && started.status == JobRunning
    && started.settings == job.settings
  }

  lemma StartsReleased(job: JobState, looked: JobState, worker: Id, x: Id, t: Moment) returns (started: JobState)
    requires AllDrift(job.tasks, looked.tasks) && looked.tasks.Keys == job.tasks.Keys
    requires IsLate(looked.tasks, t) && IsQuiet(looked.tasks, t)
    requires x in looked.tasks && looked.tasks[x].status.Todo? && looked.tasks[x].lifetimeDeadlineAt.None?
    requires looked.version == job.version && looked.iterNum == job.iterNum && looked.status == JobRunning
    requires looked.settings == job.settings
    ensures AfterStart(looked, worker, x, t) == SavingStart(started, x)
    ensures IsStartedAs(job, looked.tasks, worker, x, t, started)
    ensures FromStorage(looked.tasks) ==> FromStorage(started.tasks)
  {
    started := StartTask(looked, x, worker, t).value;
  }

  lemma Prepares(job: JobState, worker: Id, t: Moment) returns (prepared: JobState)
    requires !IsProcessed(job) && IsLate(job.tasks, t) && AllOwned(job.tasks)
    ensures Prepared(job, worker, AllAt(t)) == Ok(prepared)
    ensures prepared.tasks == FailByLifetime(job.tasks, t) && prepared.status == JobRunning
    ensures prepared.version == job.version && prepared.iterNum == job.iterNum && prepared.settings == job.settings
    ensures AllDrift(job.tasks, prepared.tasks) && prepared.tasks.Keys == job.tasks.Keys
    ensures IsLate(prepared.tasks, t) && IsQuiet(prepared.tasks, t) && AllOwned(prepared.tasks)
    ensures FromStorage(job.tasks) ==> FromStorage(prepared.tasks)
  {
    LifetimesQuieten(job.tasks, t);
    prepared := Prepared(job, worker, AllAt(t)).value;
    DriftKeepsOwned(job.tasks, prepared.tasks);
  }

  /**
   * A look at a late iteration either starts a task nobody ever started, or closes the iteration.
   * `x` is the task, `looked` the tasks as the look saw them when it took it.
   */
  lemma LookGetsOn(births: Births, job: JobState, worker: Id, t: Moment)
    returns (x: Id, looked: TaskMap, after: Phase)
    requires !IsProcessed(job) && IsLate(job.tasks, t) && AllOwned(job.tasks)
    requires GraphOk(births, job.iterNum, job.tasks)
    ensures AfterPick(job, worker, AllAt(t), x, t) == after
    ensures (after.SavingStart? && after.task == x && IsStartedAs(job, looked, worker, x, t, after.job))
            || (after.SavingSettled? && IsProcessed(after.job)
                && after.job.version == job.version && after.job.iterNum == job.iterNum)
    ensures FromStorage(job.tasks) ==> FromStorage(after.job.tasks)
  {
    var prepared := Prepares(job, worker, t);
    if y :| y in prepared.tasks && prepared.tasks[y].status.Todo? {
      QuietPicks(prepared.tasks, t, y);
      assert OwnedAt(prepared.tasks, y);
      var started := StartsReleased(job, prepared, worker, y, t);
      x, looked, after := y, prepared.tasks, SavingStart(started, y);
    } else {
      forall y | y in prepared.tasks ensures !CheckAvailability(prepared.tasks[y], t).Pickable? {
        QuietPicks(prepared.tasks, t, y);
      }
      GraphFollowsDependencies(births, job.iterNum, job.tasks, prepared.tasks);
      x, looked, after := SettlingGetsOn(births, job, prepared, worker, t);
    }
  }

  lemma SettlingGetsOn(births: Births, job: JobState, prepared: JobState, worker: Id, t: Moment)
    returns (x: Id, looked: TaskMap, after: Phase)
    requires GraphOk(births, prepared.iterNum, prepared.tasks)
    requires AllDrift(job.tasks, prepared.tasks) && prepared.tasks.Keys == job.tasks.Keys
    requires IsLate(prepared.tasks, t) && IsQuiet(prepared.tasks, t) && AllOwned(prepared.tasks)
    requires prepared.version == job.version && prepared.iterNum == job.iterNum && prepared.status == JobRunning
    requires prepared.settings == job.settings
    ensures AfterSettling(prepared, worker, AllAt(t), x, t) == after
    ensures (after.SavingStart? && after.task == x && IsStartedAs(job, looked, worker, x, t, after.job))
            || (after.SavingSettled? && IsProcessed(after.job)
                && after.job.version == job.version && after.job.iterNum == job.iterNum)
    ensures FromStorage(prepared.tasks) ==> FromStorage(after.job.tasks)
  {
    SettlingKeepsCreators(prepared, worker, t);
    var settled := TrySettle(prepared, worker, t, t);
    SettlingIsHonest(births, prepared, worker, t, t);
    DerivingDrifts(prepared.tasks, t);
    LateDrifts(prepared.tasks, settled.job.tasks, t);
    DriftKeepsOwned(prepared.tasks, settled.job.tasks);
    AllDriftOn(job.tasks, prepared.tasks, settled.job.tasks);
    if settled.result == Ok(true) {
      x, looked, after := 0, map[], SavingSettled(settled.job);
    } else {
      x, after := ReleasedGetsOn(job, prepared, settled.job, worker, t);
      looked := settled.job.tasks;
    }
  }

  lemma ReleasedGetsOn(job: JobState, prepared: JobState, settled: JobState, worker: Id, t: Moment) returns (x: Id, after: Phase)
    requires settled == TrySettle(prepared, worker, t, t).job && settled.tasks == Derived(prepared.tasks, t)
    requires TrySettle(prepared, worker, t, t).result != Ok(true) && TrySettle(prepared, worker, t, t).result != Err(IterationDeadlock)
    requires AllDrift(job.tasks, settled.tasks) && settled.tasks.Keys == job.tasks.Keys
    requires IsLate(settled.tasks, t) && IsQuiet(settled.tasks, t) && AllOwned(settled.tasks)
    requires settled.version == job.version && settled.iterNum == job.iterNum && settled.status == JobRunning
    requires prepared.settings == job.settings && prepared.status == JobRunning
    ensures AfterSettling(prepared, worker, AllAt(t), x, t) == after && after.SavingStart? && after.task == x
    ensures IsStartedAs(job, settled.tasks, worker, x, t, after.job)
    ensures FromStorage(settled.tasks) ==> FromStorage(after.job.tasks)
  {
    x := OpenHasReleased(prepared, worker, t);
    assert OwnedAt(settled.tasks, x);
    QuietPicks(settled.tasks, t, x);
    SettingsStay(prepared, worker, t);
    var started := StartsReleased(job, settled, worker, x, t);
    after := SavingStart(started, x);
  }

  lemma SettingsStay(job: JobState, worker: Id, t: Moment)
    ensures TrySettle(job, worker, t, t).job.settings == job.settings
  {
    var derived := job.(tasks := Derived(job.tasks, t));
    assert CloseIfSettled(derived, worker, t, t).job.settings == derived.settings;
  }

  /** What settling leaves open holds a released task. */
  lemma OpenHasReleased(job: JobState, worker: Id, t: Moment) returns (y: Id)
    requires IsQuiet(Derived(job.tasks, t), t) && job.status == JobRunning
    requires TrySettle(job, worker, t, t).result != Ok(true) && TrySettle(job, worker, t, t).result != Err(IterationDeadlock)
    ensures y in Derived(job.tasks, t) && Derived(job.tasks, t)[y].status.Todo?
    ensures TrySettle(job, worker, t, t).result == Ok(false)
  {
    var derived := job.(tasks := Derived(job.tasks, t));
    assert CloseIfSettled(derived, worker, t, t).result == TrySettle(job, worker, t, t).result;
    assert AnyKeepsOpen(derived.tasks, t);
    y :| y in derived.tasks && KeepsOpen(derived.tasks[y], t);
    QuietPicks(derived.tasks, t, y);
  }

  // ----- One task done -----

  lemma StartedLeavesFewer(job: JobState, looked: TaskMap, worker: Id, x: Id, t: Moment, started: JobState)
    requires IsStartedAs(job, looked, worker, x, t, started) && IsLate(job.tasks, t)
    ensures x in started.tasks && started.tasks[x].status.Started? && started.tasks[x].owner == Some(worker)
    ensures started.tasks[x].lifetimeDeadlineAt.Some?
    ensures t <= started.tasks[x].lifetimeDeadlineAt.value
    ensures IsLateBut(started.tasks, x, t)
    ensures t + started.tasks[x].maxLifetime <= MAX_MOMENT && t + started.tasks[x].timeout <= MAX_MOMENT
    ensures Unstarted(started.tasks) == Unstarted(looked) - {x} && x in Unstarted(looked)
    ensures Unstarted(looked) <= Unstarted(job.tasks)
    ensures started.tasks.Keys == job.tasks.Keys
  {
    LateDrifts(job.tasks, looked, t);
  }

  ghost predicate IsLateBut(tasks: TaskMap, x: Id, t: Moment) {
    forall y :: y in tasks && y != x ==>
      && (tasks[y].status.Started? || tasks[y].status.Failed? ==>
            tasks[y].lifetimeDeadlineAt.Some? && tasks[y].lifetimeDeadlineAt.value < t)
      && t + tasks[y].maxLifetime <= MAX_MOMENT && t + tasks[y].timeout <= MAX_MOMENT
  }

  /** The execution's task is completed. */
  lemma CompletionGetsOn(job: JobState, worker: Id, x: Id, t: Moment) returns (applied: JobState)
    requires x in job.tasks && job.tasks[x].status.Started? && job.tasks[x].owner == Some(worker)
    requires job.tasks[x].lifetimeDeadlineAt.Some? && t <= job.tasks[x].lifetimeDeadlineAt.value
    requires IsLateBut(job.tasks, x, t) && t + job.tasks[x].maxLifetime <= MAX_MOMENT && t + job.tasks[x].timeout <= MAX_MOMENT
    ensures Sessions.ApplyOutcome(job, x, worker, Sessions.Returned(""), t, t) == Ok(applied)
    ensures applied.version == job.version && applied.iterNum == job.iterNum
    ensures IsLate(applied.tasks, t) && applied.tasks.Keys == job.tasks.Keys
    ensures Unstarted(applied.tasks) == Unstarted(job.tasks)
    ensures FromStorage(job.tasks) ==> FromStorage(applied.tasks)
  {
    applied := CompleteTask(job, x, "", worker, t).value;
  }

  lemma SettledGetsOn(job: JobState, worker: Id, t: Moment)
    requires IsLate(job.tasks, t)
    ensures var settled := TrySettle(job, worker, t, t).job;
            && IsLate(settled.tasks, t) && Unstarted(settled.tasks) <= Unstarted(job.tasks)
            && settled.version == job.version && settled.iterNum == job.iterNum
            && (FromStorage(job.tasks) ==> FromStorage(settled.tasks))
  {
    SettlingDrifts(job, worker, t, t);
    SettlingKeepsCreators(job, worker, t);
    LateDrifts(job.tasks, TrySettle(job, worker, t, t).job.tasks, t);
  }

  lemma SettlingKeepsCreators(job: JobState, worker: Id, t: Moment)
    ensures FromStorage(job.tasks) ==> FromStorage(TrySettle(job, worker, t, t).job.tasks)
  {
    SettlingKeepsTasks(job, worker, t, t);
  }

  // ----- In the store -----

  ghost predicate IsTop(store: map<nat, Stored>, n: nat) {
    n in store && forall k :: k in store ==> k <= n
  }

  /** The newest stored iteration, under its own number and version. */
  ghost predicate Holds(world: World, n: nat, job: JobState) {
    && IsTop(world.store, n) && world.store[n].job == job
    && job.iterNum == n && job.version == Some(world.store[n].version)
  }

  lemma TopIsNewest(store: map<nat, Stored>, n: nat)
    requires IsTop(store, n)
    ensures Newest(store) == n
  {
  }

  /** A copy of the newest iteration, written over it. */
  lemma WrittenHolds(world: World, n: nat, before: JobState, job: JobState)
    requires Holds(world, n, before) && job.iterNum == n && job.version == before.version && FromStorage(job.tasks)
    ensures IsWriteAllowed(world, job)
    ensures Holds(Written(world, job), n, job.(version := Some(world.nextVersion)))
  {
    var versioned := job.(version := Some(world.nextVersion));
    assert Persisted(versioned).tasks == versioned.tasks;
    assert Persisted(versioned) == versioned;
  }

  lemma ReachedIsSound(def: JobDefinition, c: Chain, n: nat, job: JobState)
    requires IsChain(def, c) && Holds(Now(c).world, n, job)
    ensures GraphOk(Now(c).world.births, job.iterNum, job.tasks) && AllOwned(job.tasks) && FromStorage(job.tasks)
  {
    ChainIsRun(def, c);
    var m := RunKeepsSystem(def, c.moves);
    RunStaysOwned(def, c.moves);
    var world := Now(c).world;
    LastIsNewest(world.store, m);
    TopIsNewest(world.store, n);
    NewestIsSound(world, m);
    NewestIsLoaded(world, m);
    assert VersionOwned(world, world.store[m].job.version.value);
  }

  // ----- One round -----

  lemma Looks(def: JobDefinition, c: Chain, worker: Id, n: nat, job: JobState, t: Moment, x: Id, after: Phase) returns (c': Chain)
    requires IsChain(def, c) && PhaseOf(Now(c), worker).Idle? && Holds(Now(c).world, n, job) && !IsProcessed(job)
    requires AfterPick(job, worker, AllAt(t), x, t) == after
    ensures IsChain(def, c') && Now(c') == With(Now(c), worker, after)
    ensures |c'.moves| == |c.moves| + 3 && IsExtended(c, c', worker)
  {
    TopIsNewest(Now(c).world.store, n);
    var c1 := MoveReadNewest(def, c, worker, n, job);
    var c2 := MoveAdvance(def, c1, worker, job);
    c' := MovePick(def, c2, worker, job, AllAt(t), x, t, after);
    ExtendedOn(c, c1, c2, worker);
    ExtendedOn(c, c2, c', worker);
  }

  /** A copy of the newest iteration is stored, and acknowledged. */
  lemma Stores(def: JobDefinition, c: Chain, worker: Id, n: nat, before: JobState, phase: Phase) returns (c': Chain, job: JobState)
    requires IsChain(def, c) && PhaseOf(Now(c), worker) == phase && IsSaving(phase) && Holds(Now(c).world, n, before)
    requires phase.job.iterNum == n && phase.job.version == before.version && FromStorage(phase.job.tasks)
    ensures job == phase.job.(version := Some(Now(c).world.nextVersion))
    ensures IsChain(def, c') && Holds(Now(c').world, n, job)
    ensures PhaseOf(Now(c'), worker) == AfterWrite(phase, Now(c).world.nextVersion)
    ensures |c'.moves| == |c.moves| + 1 && IsExtended(c, c', worker)
  {
    WrittenHolds(Now(c).world, n, before, phase.job);
    c' := MoveWrite(def, c, worker, phase);
    job := phase.job.(version := Some(Now(c).world.nextVersion));
  }

  /** A started task is stored, completed and stored again. */
  lemma Executes(def: JobDefinition, c: Chain, worker: Id, n: nat, before: JobState, started: JobState, x: Id, t: Moment)
    returns (c': Chain, job: JobState)
    requires IsChain(def, c) && PhaseOf(Now(c), worker) == SavingStart(started, x) && Holds(Now(c).world, n, before)
    requires started.iterNum == n && started.version == before.version && FromStorage(started.tasks)
    requires x in started.tasks && started.tasks[x].status.Started? && started.tasks[x].owner == Some(worker)
    requires started.tasks[x].lifetimeDeadlineAt.Some? && t <= started.tasks[x].lifetimeDeadlineAt.value
    requires IsLateBut(started.tasks, x, t)
    requires t + started.tasks[x].maxLifetime <= MAX_MOMENT && t + started.tasks[x].timeout <= MAX_MOMENT
    ensures IsChain(def, c') && PhaseOf(Now(c'), worker).Idle? && Holds(Now(c').world, n, job)
    ensures IsLate(job.tasks, t) && Unstarted(job.tasks) <= Unstarted(started.tasks)
    ensures |c'.moves| == |c.moves| + 3 && IsExtended(c, c', worker)
  {
    var c1, held := Stores(def, c, worker, n, before, SavingStart(started, x));
    var applied := CompletionGetsOn(held, worker, x, t);
    SettledGetsOn(applied, worker, t);
    var settled := TrySettle(applied, worker, t, t).job;
    var c2 := MoveFinish(def, c1, worker, held, x, Sessions.Returned(""), t, applied, settled);
    var last: JobState;
    c', last := Stores(def, c2, worker, n, held, SavingResult(settled, x));
    job := last;
    ExtendedOn(c, c1, c2, worker);
    ExtendedOn(c, c2, c', worker);
  }

  /** What a round leaves: the iteration closed, or fewer tasks nobody ever started. */
  ghost predicate IsFurther(t: Moment, before: JobState, job: JobState, moves: nat, moves': nat) {
    || (IsProcessed(job) && moves' <= moves + 4)
    || (moves' == moves + 6 && |Unstarted(job.tasks)| < |Unstarted(before.tasks)| && IsLate(job.tasks, t))
  }

  lemma FewerIsLess(a: set<Id>, b: set<Id>, x: Id)
    requires a <= b - {x} && x in b
    ensures |a| < |b|
  {
    SubsetIsSmaller(a, b - {x});
  }

  lemma {:induction false} SubsetIsSmaller(a: set<Id>, b: set<Id>)
    requires a <= b
    ensures |a| <= |b|
  {
    assert b == a + (b - a);
  }

  /** From one read of the store to the next. */
  lemma Round(def: JobDefinition, c: Chain, worker: Id, n: nat, job: JobState, t: Moment) returns (c': Chain, job': JobState)
    requires IsChain(def, c) && PhaseOf(Now(c), worker).Idle? && Holds(Now(c).world, n, job)
    requires !IsProcessed(job) && IsLate(job.tasks, t)
    ensures IsChain(def, c') && PhaseOf(Now(c'), worker).Idle? && Holds(Now(c').world, n, job')
    ensures IsFurther(t, job, job', |c.moves|, |c'.moves|) && IsExtended(c, c', worker)
  {
    ReachedIsSound(def, c, n, job);
    var x, looked, after := LookGetsOn(Now(c).world.births, job, worker, t);
    var c1 := Looks(def, c, worker, n, job, t, x, after);
    if after.SavingSettled? {
      c', job' := Stores(def, c1, worker, n, job, after);
    } else {
      StartedLeavesFewer(job, looked, worker, x, t, after.job);
      c', job' := Executes(def, c1, worker, n, job, after.job, x, t);
      FewerIsLess(Unstarted(job'.tasks), Unstarted(job.tasks), x);
    }
    ExtendedOn(c, c1, c', worker);
  }

  lemma {:induction false} RoundsClose(def: JobDefinition, c: Chain, worker: Id, n: nat, job: JobState, t: Moment)
    returns (c': Chain, job': JobState)
    requires IsChain(def, c) && PhaseOf(Now(c), worker).Idle? && Holds(Now(c).world, n, job)
    requires !IsProcessed(job) ==> IsLate(job.tasks, t)
    ensures IsChain(def, c') && Holds(Now(c').world, n, job') && IsProcessed(job') && IsExtended(c, c', worker)
    ensures |c'.moves| <= |c.moves| + 4 + 6 * |Unstarted(job.tasks)|
    decreases |Unstarted(job.tasks)|
  {
    if IsProcessed(job) {
      c', job' := c, job;
    } else {
      var c1, job1 := Round(def, c, worker, n, job, t);
      if IsProcessed(job1) {
        c', job' := c1, job1;
      } else {
        c', job' := RoundsClose(def, c1, worker, n, job1, t);
        ExtendedOn(c, c1, c', worker);
      }
    }
  }

  lemma {:induction false} RunIsChain(def: JobDefinition, moves: seq<(Id, Move)>) returns (c: Chain)
    requires IsLegal(def)
    ensures IsChain(def, c) && c.moves == moves && Now(c) == Run(def, moves)
  {
    if moves == [] {
      c := Chain([], [System(EMPTY_WORLD, map[])]);
    } else {
      var before := RunIsChain(def, moves[..|moves| - 1]);
      var (worker, move) := moves[|moves| - 1];
      c := Linked(def, before, worker, move, Run(def, moves));
      assert moves == moves[..|moves| - 1] + [(worker, move)];
    }
  }

  /**
   * From every reachable state, whatever the other workers hold and wherever this one stands: if `t` is
   * past the lifetimes counted in the newest iteration, and its tasks' limits can still be counted from
   * there, this worker alone closes that iteration within five moves and six for each of its tasks.
   */
  lemma {:induction false} ALoneWorkerClosesTheIteration(def: JobDefinition, moves: seq<(Id, Move)>, worker: Id, n: nat, t: Moment)
    returns (more: seq<(Id, Move)>)
    requires IsLegal(def)
    requires var store := Run(def, moves).world.store;
             && IsTop(store, n)
             && (forall x :: x in store[n].job.tasks ==>
                   && (store[n].job.tasks[x].lifetimeDeadlineAt.Some? ==> store[n].job.tasks[x].lifetimeDeadlineAt.value < t)
                   && t + store[n].job.tasks[x].maxLifetime <= MAX_MOMENT && t + store[n].job.tasks[x].timeout <= MAX_MOMENT)
    ensures OnlyBy(worker, more) && |more| <= 5 + 6 * |Run(def, moves).world.store[n].job.tasks|
    ensures var after := Run(def, moves + more).world.store; IsTop(after, n) && IsProcessed(after[n].job)
  {
    var c := RunIsChain(def, moves);
    var c0 := MoveStop(def, c, worker);
    var job := Now(c).world.store[n].job;
    ReachedHolds(def, moves, n);
    ReachedIsSound(def, c0, n, job);
    OwnedIsLate(job.tasks, t);
    var c', job' := RoundsClose(def, c0, worker, n, job, t);
    ExtendedOn(c, c0, c', worker);
    more := c'.moves[|moves|..];
    assert moves + more == c'.moves;
    ChainIsRun(def, c');
    UnstartedIsPart(job.tasks);
  }

  lemma UnstartedIsPart(tasks: TaskMap)
    ensures |Unstarted(tasks)| <= |tasks|
  {
    SubsetIsSmaller(Unstarted(tasks), tasks.Keys);
    assert |tasks| == |tasks.Keys|;
  }

  lemma OwnedIsLate(tasks: TaskMap, t: Moment)
    requires AllOwned(tasks)
    requires forall x :: x in tasks ==>
               && (tasks[x].lifetimeDeadlineAt.Some? ==> tasks[x].lifetimeDeadlineAt.value < t)
               && t + tasks[x].maxLifetime <= MAX_MOMENT && t + tasks[x].timeout <= MAX_MOMENT
    ensures IsLate(tasks, t)
  {
    forall x | x in tasks
      ensures tasks[x].status.Started? || tasks[x].status.Failed? ==>
                tasks[x].lifetimeDeadlineAt.Some? && tasks[x].lifetimeDeadlineAt.value < t
    {
      assert OwnedAt(tasks, x);
    }
  }

  lemma {:induction false} ReachedHolds(def: JobDefinition, moves: seq<(Id, Move)>, n: nat)
    requires IsLegal(def) && IsTop(Run(def, moves).world.store, n)
    ensures Holds(Run(def, moves).world, n, Run(def, moves).world.store[n].job)
  {
    var m := RunKeepsSystem(def, moves);
    var world := Run(def, moves).world;
    assert StoredOk(world, m, n);
    assert WrittenOk(world, world.store[n].version);
  }
}
