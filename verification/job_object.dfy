/**
 * The job a worker holds, changed in place. Every method is proved against the value-level
 * operation of `Jobs`, whatever order the tasks are visited in.
 */
module JobObject {
  import opened Base
  import opened Tasks
  import opened TaskLaws
  import opened Cascades
  import opened Settling
  import opened Jobs
  import opened JobLaws

  datatype TaskPickup = PickedUp(id: Id) | NothingToPick(retryAt: Option<Moment>) | IterationSettled

  /** The readings one look for work takes, in order. */
  datatype PickReadings = PickReadings(
    workAt: Moment, failAt: Moment, findAt: Moment, settleAt: Moment, closedAt: Moment,
    findAgainAt: Moment, retryAt: Moment)

  /** The iteration as a look for work finds it: being worked on, with outlived tasks failed. */
  function Prepared(job: JobState, worker: Id, r: PickReadings): Result<JobState> {
    var working := if job.status.JobRunning? then Ok(job) else StartWork(job, worker, r.workAt);
    if working.Err? then working
    else Ok(working.value.(tasks := FailByLifetime(working.value.tasks, r.failAt)))
  }

  predicate AnyPickable(tasks: TaskMap, now: Moment) {
    exists x :: x in tasks && CheckAvailability(tasks[x], now).Pickable?
  }

  predicate IsPickOf(pickup: Result<TaskPickup>, tasks: TaskMap, now: Moment) {
    && pickup.Ok? && pickup.value.PickedUp?
    && pickup.value.id in tasks && CheckAvailability(tasks[pickup.value.id], now).Pickable?
  }

  /**
   * What a look for work may answer, and the iteration it leaves behind. Only which of several
   * pickable tasks it names is left open.
   */
  ghost predicate LooksLike(job: JobState, worker: Id, r: PickReadings, after: JobState, pickup: Result<TaskPickup>) {
    match Prepared(job, worker, r)
    case Err(e) => after == job && pickup == Err(e)
    case Ok(prepared) =>
      if AnyPickable(prepared.tasks, r.findAt) then after == prepared && IsPickOf(pickup, prepared.tasks, r.findAt)
      else
        var settled := TrySettle(prepared, worker, r.settleAt, r.closedAt);
        after == settled.job && SettledLook(settled.result, after.tasks, r, pickup)
  }

  /** The answer once the iteration was settled for lack of work. */
  ghost predicate SettledLook(settled: Result<bool>, tasks: TaskMap, r: PickReadings, pickup: Result<TaskPickup>) {
    if settled.Err? then pickup == Err(settled.error)
    else if settled.value then pickup == Ok(IterationSettled)
    else if AnyPickable(tasks, r.findAgainAt) then IsPickOf(pickup, tasks, r.findAgainAt)
    else pickup.Ok? && pickup.value.NothingToPick? && IsEarliestRetry(tasks, r.retryAt, pickup.value.retryAt)
  }

  predicate IsCarried(stored: TaskMap, ours: TaskMap, x: Id, worker: Id) {
    x in ours && (IsCreatedNow(stored, x, ours[x], worker) || IsProcessedNow(ours[x], worker))
  }

  /** `tasks` is `stored` with what is to be carried over carried, save for `left`. */
  ghost predicate CarriedSoFar(stored: TaskMap, ours: TaskMap, left: set<Id>, worker: Id, tasks: TaskMap) {
    && (forall x :: x in tasks <==> x in stored || (x !in left && IsCarried(stored, ours, x, worker)))
    && (forall x :: x in tasks ==>
          tasks[x] == if x !in left && IsCarried(stored, ours, x, worker) then ours[x] else stored[x])
  }

  /** One more task visited: carried over if it is to be, left as stored otherwise. */
  lemma CarryOneMore(stored: TaskMap, ours: TaskMap, left: set<Id>, worker: Id, tasks: TaskMap, x: Id)
    requires CarriedSoFar(stored, ours, left, worker, tasks) && x in left && x in ours
    ensures IsCreatedNow(tasks, x, ours[x], worker) <==> IsCreatedNow(stored, x, ours[x], worker)
    ensures CarriedSoFar(stored, ours, left - {x}, worker,
                         if IsCarried(stored, ours, x, worker) then tasks[x := ours[x]] else tasks)
  {
  }

  lemma CarriedWhole(stored: TaskMap, ours: TaskMap, worker: Id, tasks: TaskMap)
    requires CarriedSoFar(stored, ours, {}, worker, tasks)
    ensures tasks == MergeTasks(stored, ours, worker)
  {
  }

  ghost predicate IsEarliestRetry(tasks: TaskMap, now: Moment, retryAt: Option<Moment>) {
    && (retryAt.None? <==> forall x :: x in tasks ==> !CheckAvailability(tasks[x], now).AwaitingRetry?)
    && (retryAt.Some? ==>
          && (exists x :: x in tasks && CheckAvailability(tasks[x], now) == AwaitingRetry(retryAt.value))
          && (forall x :: x in tasks && CheckAvailability(tasks[x], now).AwaitingRetry? ==>
                retryAt.value <= CheckAvailability(tasks[x], now).retryAt))
  }

  lemma FewerMembers(a: set<Id>, b: set<Id>)
    requires a <= b
    ensures |a| <= |b|
  {
    assert b == a + (b - a);
  }

  /** A generation in the making: blocked tasks, each with the blame that will skip it. */
  type Unreachable = map<Id, Blame>

  /** `found` holds exactly the members of `ids` that `tasks` makes unreachable. */
  ghost predicate Finds(found: Unreachable, ids: set<Id>, tasks: TaskMap, now: Moment) {
    && found.Keys <= ids
    && (forall x :: x in ids && x in tasks ==> (x in found <==> BlameOf(tasks, x, now).Some?))
    && (forall x :: x in found ==> x in tasks && BlameOf(tasks, x, now) == Some(found[x]))
  }

  /** Every blocked task is listed under each of its dependencies. */
  ghost predicate Indexes(index: map<Id, seq<Id>>, tasks: TaskMap) {
    forall id, d :: id in BlockedIds(tasks) && d in tasks[id].dependsOn ==> Waits(index, id, d)
  }

  ghost predicate Waits(index: map<Id, seq<Id>>, id: Id, d: Id) {
    d in index && id in index[d]
  }

  /** A task of the second or a later generation waits for some task of the one before. */
  lemma NextGenerationDependsOnLast(tasks: TaskMap, now: Moment, id: Id) returns (d: Id)
    requires id in Generation(CascadeStep(tasks, now), now)
    ensures d in tasks[id].dependsOn && d in Generation(tasks, now)
    ensures id in BlockedIds(tasks)
  {
    var next := CascadeStep(tasks, now);
    assert next[id] == tasks[id];
    d := BlameOf(next, id, now).value.dependency;
  }

  lemma FoundIsGeneration(found: Unreachable, ids: set<Id>, tasks: TaskMap, now: Moment)
    requires Finds(found, ids, tasks, now) && Generation(tasks, now) <= ids <= BlockedIds(tasks)
    ensures found.Keys == Generation(tasks, now)
    ensures Finds(found, BlockedIds(tasks), tasks, now)
  {
  }

  /** `tasks` is `before` with the members of `done` put out as `found` blames them. */
  ghost predicate PutOutSoFar(before: TaskMap, tasks: TaskMap, found: Unreachable, done: set<Id>, now: Moment) {
    && tasks.Keys == before.Keys
    && (forall x :: x in before ==>
          tasks[x] == if x in done && x in found then PutOut(before[x], found[x], now) else before[x])
  }

  lemma PutOutOneMore(before: TaskMap, tasks: TaskMap, found: Unreachable, done: set<Id>, x: Id, now: Moment)
    requires PutOutSoFar(before, tasks, found, done, now) && x in found && x in before && x !in done
    ensures tasks[x] == before[x]
    ensures PutOutSoFar(before, tasks[x := PutOut(before[x], found[x], now)], found, done + {x}, now)
  {
  }

  lemma PutOutWhole(before: TaskMap, tasks: TaskMap, found: Unreachable, now: Moment)
    requires Finds(found, BlockedIds(before), before, now) && PutOutSoFar(before, tasks, found, found.Keys, now)
    ensures tasks == CascadeStep(before, now)
  {
    FoundIsGeneration(found, BlockedIds(before), before, now);
  }

  lemma IndexStays(index: map<Id, seq<Id>>, before: TaskMap, now: Moment)
    requires Indexes(index, before)
    ensures Indexes(index, CascadeStep(before, now))
  {
    var after := CascadeStep(before, now);
    forall id, d | id in BlockedIds(after) && d in after[id].dependsOn ensures Waits(index, id, d) {
      assert id in BlockedIds(before) && after[id] == before[id];
    }
  }

  lemma BlockedCount(before: TaskMap, now: Moment)
    ensures |BlockedIds(CascadeStep(before, now))| == |BlockedIds(before)| - |Generation(before, now)|
  {
    StepShrinksBlocked(before, now);
  }

  /** What one whole generation put out leaves to be done. */
  lemma {:induction false} GenerationIsDone(before: TaskMap, tasks: TaskMap, found: Unreachable, index: map<Id, seq<Id>>, now: Moment)
    requires tasks == CascadeStep(before, now)
    requires found.Keys == Generation(before, now) && found != map[] && Indexes(index, before)
    ensures Indexes(index, tasks) && Cascade(tasks, now) == Cascade(before, now)
    ensures BlockedIds(tasks) < BlockedIds(before) && |BlockedIds(tasks)| == |BlockedIds(before)| - |found|
  {
    IndexStays(index, before, now);
    BlockedCount(before, now);
    StepShrinksBlocked(before, now);
    assert |found| == |found.Keys|;
    assert Generation(before, now) != {};
  }

  lemma DependentsCoverNextGeneration(
    before: TaskMap, now: Moment, found: Unreachable, index: map<Id, seq<Id>>, candidates: set<Id>)
    requires found.Keys == Generation(before, now) && Indexes(index, before)
    requires forall d, x :: d in found && Waits(index, x, d) && x in BlockedIds(CascadeStep(before, now)) ==>
               x in candidates
    ensures Generation(CascadeStep(before, now), now) <= candidates
  {
    forall x | x in Generation(CascadeStep(before, now), now) ensures x in candidates {
      var d := NextGenerationDependsOnLast(before, now, x);
      assert x in BlockedIds(before) && d in before[x].dependsOn;
      assert Waits(index, x, d) && d in found && x in BlockedIds(CascadeStep(before, now));
    }
  }

  lemma {:induction false} PutOutCount(tasks: TaskMap, now: Moment)
    ensures |PutOutIds(tasks, now)| == |BlockedIds(tasks)| - |BlockedIds(Cascade(tasks, now))|
  {
    CascadeOnlyPutsOut(tasks, now);
    var final := Cascade(tasks, now);
    forall id | id in BlockedIds(final) ensures id in BlockedIds(tasks) {
      assert LeftOrPutOut(tasks[id], final[id]);
    }
    assert PutOutIds(tasks, now) == BlockedIds(tasks) - BlockedIds(final);
  }

  class Job {
    var id: Id
    var iterNum: nat
    var status: JobStatus
    var tasks: TaskMap
    var updatedBy: Id
    var startedAt: Moment
    var runningAt: Option<Moment>
    var completedAt: Option<Moment>
    var nextStartAt: Option<Moment>
    var version: Option<nat>
    var settings: Settings

    ghost function State(): JobState
      reads this
    {
      JobState(id, iterNum, status, tasks, updatedBy, startedAt, runningAt, completedAt, nextStartAt, version, settings)
    }

    constructor Restore(s: JobState)
      ensures State() == s
    {
      id, iterNum, status, tasks, updatedBy := s.id, s.iterNum, s.status, s.tasks, s.updatedBy;
      startedAt, runningAt, completedAt, nextStartAt := s.startedAt, s.runningAt, s.completedAt, s.nextStartAt;
      version, settings := s.version, s.settings;
    }

    // ----- The cascade -----

    /** The members of `ids` that are unreachable, in whatever order they are visited. */
    method FindUnreachable(ids: set<Id>, now: Moment) returns (found: Unreachable)
      requires ids <= tasks.Keys
      ensures Finds(found, ids, tasks, now)
    {
      found := map[];
      var left := ids;
      while left != {}
        invariant left <= ids
        invariant Finds(found, ids - left, tasks, now)
        decreases left
      {
        var x :| x in left;
        left := left - {x};
        var blame := FindUnreachableDependency(tasks, tasks[x], tasks[x].dependsOn, now);
        if blame.Some? {
          found := found[x := blame.value];
        }
      }
      assert ids - left == ids;
    }

    method IndexBlockedDependents() returns (index: map<Id, seq<Id>>)
      ensures Indexes(index, tasks)
      ensures forall x, d :: Waits(index, x, d) ==> x in BlockedIds(tasks) && d in tasks[x].dependsOn
    {
      index := map[];
      var left := set x | x in tasks && tasks[x].status.Blocked?;
      while left != {}
        invariant left <= BlockedIds(tasks)
        invariant forall x, d :: x in BlockedIds(tasks) && x !in left && d in tasks[x].dependsOn ==>
                    Waits(index, x, d)
        invariant forall x, d :: Waits(index, x, d) ==> x in BlockedIds(tasks) && d in tasks[x].dependsOn
        decreases left
      {
        var x :| x in left;
        left := left - {x};
        var deps := tasks[x].dependsOn;
        ghost var before := index;
        for k := 0 to |deps|
          invariant forall y, d :: Waits(before, y, d) ==> Waits(index, y, d)
          invariant forall y, d :: Waits(index, y, d) ==> Waits(before, y, d) || (y == x && d in deps)
          invariant forall j :: 0 <= j < k ==> Waits(index, x, deps[j])
        {
          index := index[deps[k] := (if deps[k] in index then index[deps[k]] else []) + [x]];
        }
      }
    }

    /** Puts out one whole generation. */
    method PutOutGeneration(found: Unreachable, now: Moment) returns (r: Result<()>)
      requires found.Keys <= BlockedIds(tasks)
      modifies this`tasks
      ensures r.Ok? && PutOutSoFar(old(tasks), tasks, found, found.Keys, now)
    {
      ghost var before, done := tasks, {};
      var left := found.Keys;
      while left != {}
        invariant done !! left && done + left == found.Keys
        invariant PutOutSoFar(before, tasks, found, done, now)
        decreases left
      {
        var x :| x in left;
        assert x in BlockedIds(before);
        PutOutOneMore(before, tasks, found, done, x, now);
        var skipped := Skip(tasks[x], UnreachableDependency(found[x].dependency), found[x].cause, now);
        if skipped.Err? {
          return Err(Other);
        }
        tasks := tasks[x := skipped.value];
        left, done := left - {x}, done + {x};
      }
      return Ok(());
    }

    /** Whoever is still blocked behind the last generation. */
    method CollectDependents(found: Unreachable, index: map<Id, seq<Id>>) returns (candidates: set<Id>)
      ensures candidates <= BlockedIds(tasks)
      ensures forall d, x :: d in found && Waits(index, x, d) && x in BlockedIds(tasks) ==> x in candidates
    {
      candidates := {};
      var left := found.Keys;
      while left != {}
        invariant left <= found.Keys
        invariant candidates <= BlockedIds(tasks)
        invariant forall d, x :: d in found && d !in left && Waits(index, x, d) && x in BlockedIds(tasks)
                    ==> x in candidates
        decreases left
      {
        var d :| d in left;
        left := left - {d};
        if d in index {
          candidates := candidates + (set x | x in index[d] && x in tasks && tasks[x].status.Blocked?);
        }
      }
    }

    /**
     * The indexed, generation-by-generation cascade. It never errors, and whatever order it visits
     * tasks in it leaves what the plain cascade leaves.
     */
    method SkipUnreachableTasks(now: Moment) returns (r: Result<nat>)
      modifies this`tasks
      ensures r.Ok? && r.value == |PutOutIds(old(tasks), now)|
      ensures tasks == Cascade(old(tasks), now)
    {
      PutOutCount(tasks, now);
      var unreachable := FindUnreachable(BlockedIds(tasks), now);
      FoundIsGeneration(unreachable, BlockedIds(tasks), tasks, now);
      if unreachable == map[] {
        return Ok(0);
      }
      var index := IndexBlockedDependents();
      var skippedCount := 0;
      while unreachable != map[]
        invariant Finds(unreachable, BlockedIds(tasks), tasks, now)
        invariant unreachable.Keys == Generation(tasks, now)
        invariant Indexes(index, tasks)
        invariant Cascade(tasks, now) == Cascade(old(tasks), now)
        invariant skippedCount == |BlockedIds(old(tasks))| - |BlockedIds(tasks)|
        decreases BlockedIds(tasks)
      {
        ghost var before := tasks;
        var put := PutOutGeneration(unreachable, now);
        if put.Err? {
          return Err(Other);
        }
        PutOutWhole(before, tasks, unreachable, now);
        GenerationIsDone(before, tasks, unreachable, index, now);
        skippedCount := skippedCount + |unreachable|;
        var candidates := CollectDependents(unreachable, index);
        DependentsCoverNextGeneration(before, now, unreachable, index, candidates);
        unreachable := FindUnreachable(candidates, now);
        FoundIsGeneration(unreachable, candidates, tasks, now);
      }
      return Ok(skippedCount);
    }

    // ----- Looking for work and settling -----

    method UnblockSatisfiedTasks(now: Moment)
      modifies this`tasks
      ensures tasks == UnblockSatisfied(old(tasks), now)
    {
      ghost var before := tasks;
      var toUnblock := set x | x in tasks && tasks[x].status.Blocked? && DependenciesSatisfied(tasks, tasks[x], now);
      var left := toUnblock;
      while left != {}
        invariant left <= toUnblock && tasks.Keys == before.Keys
        invariant forall x :: x in before ==>
                    tasks[x] == if x in toUnblock && x !in left then Tasks.Unblock(before[x]) else before[x]
        decreases left
      {
        var x :| x in left;
        left := left - {x};
        tasks := tasks[x := Tasks.Unblock(tasks[x])];
      }
      assert tasks == UnblockSatisfied(before, now);
    }

    method FailTasksByLifetime(now: Moment) returns (r: Result<()>)
      modifies this`tasks
      ensures r.Ok? && tasks == FailByLifetime(old(tasks), now)
    {
      ghost var before := tasks;
      var expired := set x | x in tasks && CheckAvailability(tasks[x], now).ExpiredPastLifetime?;
      var left := expired;
      while left != {}
        invariant left <= expired && tasks.Keys == before.Keys
        invariant forall x :: x in before ==>
                    tasks[x] == if x in expired && x !in left then FailedByLifetime(before[x], now) else before[x]
        decreases left
      {
        var x :| x in left;
        left := left - {x};
        var failed := Fail(tasks[x], Message("lifetime"), WhileBudgetLasts, now);
        if failed.Err? {
          return Err(Other);
        }
        tasks := tasks[x := failed.value];
      }
      assert tasks == FailByLifetime(before, now);
      return Ok(());
    }

    method BeginWork(worker: Id, now: Moment) returns (r: Result<()>)
      modifies this
      ensures r.Ok? == StartWork(old(State()), worker, now).Ok?
      ensures r.Err? ==> r.error == StartWork(old(State()), worker, now).error
      ensures State() == if r.Ok? then StartWork(old(State()), worker, now).value else old(State())
    {
      if !CanTransition(status, JobRunning) {
        return Err(InvalidStatusTransition);
      }
      status, updatedBy, runningAt := JobRunning, worker, Some(now);
      return Ok(());
    }

    method CloseIfNothingMoves(worker: Id, now: Moment, closedAt: Moment) returns (r: Result<bool>)
      modifies this
      ensures Outcome(State(), r) == CloseIfSettled(old(State()), worker, now, closedAt)
      ensures r == Ok(true) ==>
                status == (if HasLostTasks(tasks, now) then JobFailed else JobCompleted) && completedAt == Some(closedAt)
    {
      ClosingLaw(State(), worker, now, closedAt);
      if AnyKeepsOpen(tasks, now) {
        return Ok(false);
      }
      if !AllResolved(tasks) {
        return Err(IterationDeadlock);
      }
      var verdict := DeriveIterationVerdict(tasks, now);
      assert verdict == VerdictOf(tasks, now);
      if !CanTransition(status, StatusOfVerdict(verdict)) {
        return Err(InvalidStatusTransition);
      }
      status, updatedBy, completedAt := StatusOfVerdict(verdict), worker, Some(closedAt);
      return Ok(true);
    }

    /** Cascade, unblocking and, with no task left to run, the verdict. */
    method TrySettleIteration(worker: Id, now: Moment, closedAt: Moment) returns (r: Result<bool>)
      modifies this
      ensures Outcome(State(), r) == TrySettle(old(State()), worker, now, closedAt)
      ensures r == Ok(false) <==> IsMoving(tasks, now)
      ensures r == Ok(true) ==>
                && IsAllSettled(tasks) && completedAt == Some(closedAt)
                && status == if HasLostTasks(tasks, now) then JobFailed else JobCompleted
    {
      SettlingLaw(State(), worker, now, closedAt);
      var skipped := SkipUnreachableTasks(now);
      UnblockSatisfiedTasks(now);
      r := CloseIfNothingMoves(worker, now, closedAt);
    }

    /**
     * One look for work: outlived tasks are failed, and if nothing may be started the iteration is
     * settled and looked at once more.
     */
    method PickTaskToExecute(worker: Id, r: PickReadings) returns (pickup: Result<TaskPickup>)
      modifies this
      ensures LooksLike(old(State()), worker, r, State(), pickup)
    {
      if !status.JobRunning? {
        var begun := BeginWork(worker, r.workAt);
        if begun.Err? {
          return Err(begun.error);
        }
      }
      var failed := FailTasksByLifetime(r.failAt);
      ghost var prepared := State();
      assert Prepared(old(State()), worker, r) == Ok(prepared);
      if AnyPickable(tasks, r.findAt) {
        var x :| x in tasks && CheckAvailability(tasks[x], r.findAt).Pickable?;
        return Ok(PickedUp(x));
      }
      var settled := TrySettleIteration(worker, r.settleAt, r.closedAt);
      if settled.Err? {
        return Err(settled.error);
      }
      if settled.value {
        return Ok(IterationSettled);
      }
      if AnyPickable(tasks, r.findAgainAt) {
        var x :| x in tasks && CheckAvailability(tasks[x], r.findAgainAt).Pickable?;
        return Ok(PickedUp(x));
      }
      var retryAt := FindEarliestRetry(r.retryAt);
      return Ok(NothingToPick(retryAt));
    }

    /** The least retry moment any task awaits. */
    method FindEarliestRetry(now: Moment) returns (retryAt: Option<Moment>)
      ensures IsEarliestRetry(tasks, now, retryAt)
    {
      retryAt := None;
      var left := tasks.Keys;
      while left != {}
        invariant left <= tasks.Keys
        invariant retryAt.None? ==> forall x :: x in tasks && x !in left ==> !CheckAvailability(tasks[x], now).AwaitingRetry?
        invariant retryAt.Some? ==>
                    && (exists x :: x in tasks && CheckAvailability(tasks[x], now) == AwaitingRetry(retryAt.value))
                    && (forall x :: x in tasks && x !in left && CheckAvailability(tasks[x], now).AwaitingRetry? ==>
                          retryAt.value <= CheckAvailability(tasks[x], now).retryAt)
        decreases left
      {
        var x :| x in left;
        left := left - {x};
        var availability := CheckAvailability(tasks[x], now);
        if availability.AwaitingRetry? && (retryAt.None? || availability.retryAt < retryAt.value) {
          retryAt := Some(availability.retryAt);
        }
      }
    }

    // ----- What an execution does -----

    method RegisterTask(def: TaskDefinition, worker: Id, creator: Option<Id>, minted: Id) returns (r: Result<Id>)
      modifies this
      ensures r.Ok? == AddTask(old(State()), def, worker, creator, minted).Ok?
      ensures r.Err? ==> r.error == AddTask(old(State()), def, worker, creator, minted).error
      ensures r.Ok? ==> r.value == minted && minted in tasks && IsAsDescribed(tasks[minted], def, worker, creator)
      ensures r.Ok? ==> forall k :: 0 <= k < |def.dependsOn| ==> def.dependsOn[k] == Created(tasks[minted].dependsOn[k])
      ensures State() == if r.Ok? then AddTask(old(State()), def, worker, creator, minted).value else old(State())
    {
      AddedTaskIsAsDescribed(State(), def, worker, creator, minted);
      if Validate(def, settings.maxInputSize).Err? || !DeclaresToleranceValid(def) {
        return Err(Other);
      }
      if creator.Some? {
        if creator.value !in tasks {
          return Err(TaskNotFound);
        }
        if tasks[creator.value].status.Failed? {
          return Err(Other);
        }
      }
      var resolved := ResolveCreated(def.dependsOn, tasks);
      if resolved.Err? {
        return Err(resolved.error);
      }
      tasks := tasks[minted := NewTask(worker, creator, def, resolved.value)];
      return Ok(minted);
    }

    method TakeTask(x: Id, worker: Id, now: Moment) returns (r: Result<()>)
      modifies this
      ensures r.Ok? == StartTask(old(State()), x, worker, now).Ok?
      ensures r.Err? ==> r.error == StartTask(old(State()), x, worker, now).error
      ensures State() == if r.Ok? then StartTask(old(State()), x, worker, now).value else old(State())
    {
      if x !in tasks {
        return Err(TaskNotFound);
      }
      var cell := new TaskCell(tasks[x]);
      r := cell.StartBy(worker, now);
      if r.Ok? {
        tasks, updatedBy := tasks[x := cell.task], worker;
      }
    }

    method FinishTask(x: Id, output: string, worker: Id, now: Moment) returns (r: Result<()>)
      modifies this
      ensures r.Ok? == CompleteTask(old(State()), x, output, worker, now).Ok?
      ensures r.Err? ==> r.error == CompleteTask(old(State()), x, output, worker, now).error
      ensures State() == if r.Ok? then CompleteTask(old(State()), x, output, worker, now).value else old(State())
    {
      if |output| > settings.maxOutputSize {
        return Err(Other);
      }
      if x !in tasks {
        return Err(TaskNotFound);
      }
      if CheckOwner(tasks[x], worker).Err? {
        return Err(TaskWorkerMismatch);
      }
      var cell := new TaskCell(tasks[x]);
      r := cell.CompleteWith(output, now);
      if r.Ok? {
        tasks := tasks[x := cell.task];
      }
    }

    /** Records a refusal and takes the refused execution's plan back; the answer counts the tasks dropped. */
    method RefuseTask(x: Id, reason: Reason, retry: TaskRetry, worker: Id, now: Moment) returns (r: Result<nat>)
      modifies this
      ensures r.Ok? == FailTask(old(State()), x, reason, retry, worker, now).Ok?
      ensures r.Err? ==> r.error == FailTask(old(State()), x, reason, retry, worker, now).error
      ensures State() == if r.Ok? then FailTask(old(State()), x, reason, retry, worker, now).value else old(State())
      ensures r.Ok? ==> r.value == |old(tasks)| - |tasks|
    {
      if x !in tasks {
        return Err(TaskNotFound);
      }
      if CheckOwner(tasks[x], worker).Err? {
        return Err(TaskWorkerMismatch);
      }
      var cell := new TaskCell(tasks[x]);
      var failed := cell.FailWith(reason, retry, now);
      if failed.Err? {
        return Err(failed.error);
      }
      tasks := tasks[x := cell.task];
      assert tasks.Keys == old(tasks).Keys;
      var countBefore := |tasks.Keys|;
      assert countBefore == |old(tasks)|;
      ghost var before := tasks;
      tasks := map y | y in tasks && tasks[y].createdByTask != Some(x) :: tasks[y];
      assert tasks.Keys <= before.Keys;
      FewerMembers(tasks.Keys, before.Keys);
      return Ok(countBefore - |tasks.Keys|);
    }

    method SkipBranch(x: Id, reason: Reason, worker: Id, now: Moment) returns (r: Result<()>)
      modifies this
      ensures r.Ok? == SkipTaskByExecutor(old(State()), x, reason, worker, now).Ok?
      ensures r.Err? ==> r.error == SkipTaskByExecutor(old(State()), x, reason, worker, now).error
      ensures State() == if r.Ok? then SkipTaskByExecutor(old(State()), x, reason, worker, now).value else old(State())
    {
      if x !in tasks {
        return Err(TaskNotFound);
      }
      if CheckOwner(tasks[x], worker).Err? {
        return Err(TaskWorkerMismatch);
      }
      var cell := new TaskCell(tasks[x]);
      r := cell.SkipFor(reason, ExecutorDecision, now);
      if r.Ok? {
        tasks := tasks[x := cell.task];
      }
    }

    // ----- Merging after a lost race -----

    method MergeWithPickedTask(ours: Job, worker: Id, x: Id, now: Moment, later: Moment) returns (r: Result<()>)
      requires ours != this
      modifies this
      ensures r.Ok? == MergePicked(old(State()), ours.State(), worker, x, now, later).Ok?
      ensures r.Ok? ==> State() == MergePicked(old(State()), ours.State(), worker, x, now, later).value
      ensures r.Err? ==> r.error == MergePicked(old(State()), ours.State(), worker, x, now, later).error
      ensures r == Err(TaskWorkerMismatch) <==> id == ours.id && x in old(tasks) && IsHeldByAnother(old(tasks)[x], worker)
      ensures r.Err? ==> State() == old(State())
    {
      if id != ours.id {
        return Err(Other);
      }
      if x !in tasks {
        return Err(TaskNotFound);
      }
      if CheckOwner(tasks[x], worker).Err? {
        return Err(TaskWorkerMismatch);
      }
      if x !in ours.tasks {
        return Err(TaskNotFound);
      }
      if !ours.tasks[x].status.Started? || !CanTransition(status, ours.status) {
        return Err(Other);
      }
      status := ours.status;
      var failed := FailTasksByLifetime(now);
      var skipped := SkipUnreachableTasks(later);
      tasks := tasks[x := ours.tasks[x]];
      updatedBy := worker;
      if runningAt.None? {
        runningAt := ours.runningAt;
      }
      return Ok(());
    }

    /** Carries over, task by task in any order, what `worker` changed in its copy. */
    method CarryOver(ours: TaskMap, worker: Id)
      modifies this`tasks
      ensures tasks == MergeTasks(old(tasks), ours, worker)
    {
      ghost var before := tasks;
      var left := ours.Keys;
      while left != {}
        invariant left <= ours.Keys
        invariant CarriedSoFar(before, ours, left, worker, tasks)
        decreases left
      {
        var x :| x in left;
        CarryOneMore(before, ours, left, worker, tasks, x);
        left := left - {x};
        if IsCreatedNow(tasks, x, ours[x], worker) || IsProcessedNow(ours[x], worker) {
          tasks := tasks[x := ours[x]];
        }
      }
      CarriedWhole(before, ours, worker, tasks);
    }

    /** Carries over the tasks of an open iteration and what `ours` knows about its schedule. */
    method CarryResult(ours: Job, worker: Id, now: Moment)
      requires ours != this && !status.JobCompleted? && !status.JobFailed?
      modifies this
      ensures State() == CarriedOver(old(State()), ours.State(), worker, now)
    {
      CarryOver(ours.tasks, worker);
      updatedBy := worker;
      if !status.JobRunning? {
        var begun := BeginWork(worker, now);
      }
      if ours.runningAt.Some? {
        runningAt := ours.runningAt;
      }
      if ours.nextStartAt.Some? {
        nextStartAt := ours.nextStartAt;
      }
    }

    method MergeWithProcessedTask(ours: Job, worker: Id, x: Id, now: Moment, closedAt: Moment) returns (r: Result<()>)
      requires ours != this
      modifies this
      ensures Outcome(State(), r) == MergeProcessed(old(State()), ours.State(), worker, x, now, closedAt)
    {
      if id != ours.id {
        return Err(Other);
      }
      if x !in tasks {
        return Err(TaskNotFound);
      }
      if CheckOwner(tasks[x], worker).Err? {
        return Err(TaskWorkerMismatch);
      }
      if status.JobCompleted? || status.JobFailed? {
        return Err(IterationAlreadySettled);
      }
      CarryResult(ours, worker, now);
      var settled := TrySettleIteration(worker, now, closedAt);
      return if settled.Ok? then Ok(()) else Err(settled.error);
    }
  }
}
