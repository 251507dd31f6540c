/** Whole stretches of a run of the protocol, for building concrete ones. */
module ProtocolStretches {
  import opened Base
  import opened Cascades
  import opened Jobs
  import opened JobObject
  import opened Planning
  import opened Protocol
  import Sessions

  /** A run with every system it passes through, the empty one first. */
  datatype Chain = Chain(moves: seq<(Id, Move)>, states: seq<System>)

  ghost predicate IsLink(def: JobDefinition, c: Chain, i: nat)
    requires IsLegal(def)
  {
    i < |c.moves| && |c.states| == |c.moves| + 1 ==>
      c.states[i + 1] == Apply(def, c.states[i], c.moves[i].0, c.moves[i].1)
  }

  ghost predicate IsChain(def: JobDefinition, c: Chain) {
    && IsLegal(def)
    && |c.states| == |c.moves| + 1 && c.states[0] == System(EMPTY_WORLD, map[])
    && (forall i: nat {:trigger IsLink(def, c, i)} :: IsLink(def, c, i))
  }

  ghost function Now(c: Chain): System
    requires c.states != []
  {
    c.states[|c.states| - 1]
  }

  lemma {:induction false} ChainIsRun(def: JobDefinition, c: Chain)
    requires IsChain(def, c)
    ensures Run(def, c.moves) == Now(c)
    decreases |c.moves|
  {
    if c.moves != [] {
      var n := |c.moves| - 1;
      var init := Chain(c.moves[..n], c.states[..n + 1]);
      forall i: nat ensures IsLink(def, init, i) {
        assert IsLink(def, c, i);
      }
      ChainIsRun(def, init);
      assert IsLink(def, c, n);
    }
  }

  lemma Linked(def: JobDefinition, c: Chain, worker: Id, move: Move, s: System) returns (c': Chain)
    requires IsChain(def, c) && s == Apply(def, Now(c), worker, move)
    ensures IsChain(def, c') && Now(c') == s && c'.moves == c.moves + [(worker, move)]
    ensures IsExtended(c, c', worker)
  {
    c' := Chain(c.moves + [(worker, move)], c.states + [s]);
    forall i: nat ensures IsLink(def, c', i) {
      assert IsLink(def, c, i);
    }
  }

  /** Nobody but `worker` moves. */
  ghost predicate OnlyBy(worker: Id, moves: seq<(Id, Move)>) {
    forall i :: 0 <= i < |moves| ==> moves[i].0 == worker
  }

  /** `c'` goes on from `c` by moves of `worker`. */
  ghost predicate IsExtended(c: Chain, c': Chain, worker: Id) {
    && |c.moves| <= |c'.moves| && c'.moves[..|c.moves|] == c.moves
    && OnlyBy(worker, c'.moves[|c.moves|..])
  }

  lemma ExtendedIsOwn(c: Chain, c': Chain, worker: Id)
    requires IsExtended(c, c', worker)
    ensures OnlyBy(worker, c.moves) ==> OnlyBy(worker, c'.moves)
  {
    assert c'.moves == c'.moves[..|c.moves|] + c'.moves[|c.moves|..];
  }

  lemma ExtendedOn(a: Chain, b: Chain, c: Chain, worker: Id)
    requires IsExtended(a, b, worker) && IsExtended(b, c, worker)
    ensures IsExtended(a, c, worker)
  {
    assert c.moves[..|a.moves|] == c.moves[..|b.moves|][..|a.moves|];
    forall i | 0 <= i < |c.moves| - |a.moves| ensures c.moves[|a.moves|..][i].0 == worker {
      var j := i + |a.moves|;
      if j < |b.moves| {
        assert c.moves[j] == b.moves[j] == b.moves[|a.moves|..][i];
      } else {
        assert c.moves[j] == c.moves[|b.moves|..][j - |b.moves|];
      }
    }
  }

  // ----- Single moves -----

  ghost function With(s: System, worker: Id, phase: Phase): System {
    s.(workers := s.workers[worker := phase])
  }

  /** The store holds the one iteration `job`, and the next write gets the version after its own. */
  ghost predicate Shows(world: World, v: nat, job: JobState) {
    && world.store == map[1 := Stored(v, job)] && world.nextVersion == v + 1
    && job.id == 0 && job.iterNum == 1 && job.version == Some(v) && !IsProcessed(job)
  }

  lemma NewestIsOne(store: map<nat, Stored>)
    requires store.Keys == {1}
    ensures Newest(store) == 1
  {
    assert 1 in store && forall k :: k in store ==> k <= 1;
  }

  lemma MoveReadNewest(def: JobDefinition, c: Chain, worker: Id, n: nat, job: JobState) returns (c': Chain)
    requires IsChain(def, c) && PhaseOf(Now(c), worker).Idle?
    requires var store := Now(c).world.store; Newest(store) == n && n in store && store[n].job == job
    ensures IsChain(def, c') && Now(c') == With(Now(c), worker, Advancing(job))
    ensures |c'.moves| == |c.moves| + 1 && IsExtended(c, c', worker)
  {
    c' := Linked(def, c, worker, Read, With(Now(c), worker, Advancing(job)));
  }

  lemma MoveRead(def: JobDefinition, c: Chain, worker: Id, v: nat, job: JobState) returns (c': Chain)
    requires IsChain(def, c) && Shows(Now(c).world, v, job) && PhaseOf(Now(c), worker).Idle?
    ensures IsChain(def, c') && Now(c') == With(Now(c), worker, Advancing(job))
    ensures OnlyBy(worker, c.moves) ==> OnlyBy(worker, c'.moves)
  {
    NewestIsOne(Now(c).world.store);
    c' := MoveReadNewest(def, c, worker, 1, job);
    ExtendedIsOwn(c, c', worker);
  }

  lemma MoveAdvance(def: JobDefinition, c: Chain, worker: Id, job: JobState) returns (c': Chain)
    requires IsChain(def, c) && PhaseOf(Now(c), worker) == Advancing(job) && !IsProcessed(job)
    ensures IsChain(def, c') && Now(c') == With(Now(c), worker, Open(job))
    ensures OnlyBy(worker, c.moves) ==> OnlyBy(worker, c'.moves)
    ensures |c'.moves| == |c.moves| + 1 && IsExtended(c, c', worker)
  {
    c' := Linked(def, c, worker, Advance([], 0), With(Now(c), worker, Open(job)));
  }

  /** Every reading of one look at the same moment. */
  function AllAt(t: Moment): PickReadings {
    PickReadings(t, t, t, t, t, t, t)
  }

  lemma MovePick(def: JobDefinition, c: Chain, worker: Id, job: JobState, r: PickReadings, x: Id, startAt: Moment, after: Phase)
    returns (c': Chain)
    requires IsChain(def, c) && PhaseOf(Now(c), worker) == Open(job) && r.settleAt <= r.closedAt
    requires AfterPick(job, worker, r, x, startAt) == after
    ensures IsChain(def, c') && Now(c') == With(Now(c), worker, after)
    ensures OnlyBy(worker, c.moves) ==> OnlyBy(worker, c'.moves)
    ensures |c'.moves| == |c.moves| + 1 && IsExtended(c, c', worker)
  {
    c' := Linked(def, c, worker, Pick(r, x, startAt), With(Now(c), worker, after));
  }

  lemma MoveWrite(def: JobDefinition, c: Chain, worker: Id, phase: Phase) returns (c': Chain)
    requires IsChain(def, c) && PhaseOf(Now(c), worker) == phase && IsSaving(phase)
    requires IsWriteAllowed(Now(c).world, phase.job)
    ensures IsChain(def, c')
    ensures Now(c') == With(Now(c), worker, AfterWrite(phase, Now(c).world.nextVersion)).(world := Written(Now(c).world, phase.job))
    ensures c'.moves == c.moves + [(worker, Write(true))]
    ensures OnlyBy(worker, c.moves) ==> OnlyBy(worker, c'.moves)
    ensures |c'.moves| == |c.moves| + 1 && IsExtended(c, c', worker)
  {
    c' := Linked(def, c, worker, Write(true),
                 With(Now(c), worker, AfterWrite(phase, Now(c).world.nextVersion)).(world := Written(Now(c).world, phase.job)));
  }

  lemma MoveMerge(def: JobDefinition, c: Chain, worker: Id, phase: Phase, v: nat, saved: JobState, at: Moment, after: Phase)
    returns (c': Chain)
    requires IsChain(def, c) && Shows(Now(c).world, v, saved) && PhaseOf(Now(c), worker) == phase && IsSaving(phase)
    requires !IsWriteAllowed(Now(c).world, phase.job) && AfterConflict(phase, worker, saved, at, at) == after
    ensures IsChain(def, c') && Now(c') == With(Now(c), worker, after)
  {
    NewestIsOne(Now(c).world.store);
    c' := Linked(def, c, worker, Merge(at, at), With(Now(c), worker, after));
  }

  lemma MoveFinish(def: JobDefinition, c: Chain, worker: Id, job: JobState, x: Id, outcome: Sessions.ExecutorOutcome, at: Moment,
                   applied: JobState, settled: JobState) returns (c': Chain)
    requires IsChain(def, c) && PhaseOf(Now(c), worker) == Executing(job, x)
    requires Sessions.ApplyOutcome(job, x, worker, outcome, at, at) == Ok(applied)
    requires TrySettle(applied, worker, at, at).job == settled
    ensures IsChain(def, c') && Now(c') == With(Now(c), worker, SavingResult(settled, x))
    ensures |c'.moves| == |c.moves| + 1 && IsExtended(c, c', worker)
  {
    c' := Linked(def, c, worker, Finish(outcome, at, at, at, at), With(Now(c), worker, SavingResult(settled, x)));
  }

  lemma MoveStop(def: JobDefinition, c: Chain, worker: Id) returns (c': Chain)
    requires IsChain(def, c)
    ensures IsChain(def, c') && Now(c') == With(Now(c), worker, Idle)
    ensures OnlyBy(worker, c.moves) ==> OnlyBy(worker, c'.moves)
    ensures |c'.moves| == |c.moves| + 1 && IsExtended(c, c', worker)
  {
    c' := Linked(def, c, worker, Stop, With(Now(c), worker, Idle));
  }

  lemma MoveCreate(def: JobDefinition, ids: seq<Id>, worker: Id, now: Moment, job: JobState) returns (c: Chain)
    requires IsLegal(def) && |ids| == |def.initialTasks| && Distinct(ids) && NewJob(def, 0, ids, worker, now) == Ok(job)
    ensures IsChain(def, c) && PhaseOf(Now(c), worker) == SavingIteration(job)
    ensures Now(c).world.store == map[] && Now(c).world.nextVersion == 0
    ensures forall other :: other != worker ==> PhaseOf(Now(c), other).Idle?
    ensures OnlyBy(worker, c.moves)
  {
    c := Chain([], [System(EMPTY_WORLD, map[])]);
    assert forall i: nat :: IsLink(def, c, i);
    var s := Apply(def, Now(c), worker, Create(0, ids, now));
    c := Linked(def, c, worker, Create(0, ids, now), s);
  }

  // ----- Stretches -----

  ghost predicate OthersUntouched(s: System, s': System, worker: Id) {
    forall other :: other != worker ==> PhaseOf(s', other) == PhaseOf(s, other)
  }

  ghost predicate FromStorage(tasks: TaskMap) {
    forall x :: x in tasks ==> tasks[x].createdByTask.None?
  }

  lemma StoredAsHeld(world: World, v: nat, before: JobState, job: JobState)
    requires Shows(world, v, before) && FromStorage(job.tasks)
    requires job.id == 0 && job.iterNum == 1 && !IsProcessed(job)
    ensures Shows(Written(world, job), v + 1, job.(version := Some(v + 1)))
  {
    var versioned := job.(version := Some(v + 1));
    assert Persisted(versioned).tasks == versioned.tasks;
    assert Persisted(versioned) == versioned;
  }

  lemma FirstStoredAsHeld(world: World, job: JobState)
    requires world.store == map[] && world.nextVersion == 0 && FromStorage(job.tasks)
    requires job.id == 0 && job.iterNum == 1 && !IsProcessed(job)
    ensures Shows(Written(world, job), 0, job.(version := Some(0)))
  {
    var versioned := job.(version := Some(0));
    assert Persisted(versioned).tasks == versioned.tasks;
    assert Persisted(versioned) == versioned;
  }

  lemma PlannedIsFromStorage(def: JobDefinition, ids: seq<Id>, worker: Id, now: Moment) returns (job: JobState)
    requires IsLegal(def) && |ids| == |def.initialTasks| && Distinct(ids)
    ensures NewJob(def, 0, ids, worker, now) == Ok(job) && FromStorage(job.tasks)
    ensures job.id == 0 && job.iterNum == 1 && !IsProcessed(job) && job.version == None
  {
    PlannedIterationIsSound(def, 0, ids, worker, now);
    job := NewJob(def, 0, ids, worker, now).value;
  }

  /** A planned first iteration is stored, and its creator goes idle. */
  lemma Begins(def: JobDefinition, ids: seq<Id>, worker: Id, now: Moment, planned: JobState) returns (c: Chain)
    requires IsLegal(def) && |ids| == |def.initialTasks| && Distinct(ids) && NewJob(def, 0, ids, worker, now) == Ok(planned)
    requires FromStorage(planned.tasks) && planned.id == 0 && planned.iterNum == 1 && !IsProcessed(planned) && planned.version == None
    ensures IsChain(def, c) && Shows(Now(c).world, 0, planned.(version := Some(0)))
    ensures forall other :: PhaseOf(Now(c), other).Idle?
    ensures OnlyBy(worker, c.moves)
  {
    var created := MoveCreate(def, ids, worker, now, planned);
    var written := MoveWrite(def, created, worker, SavingIteration(planned));
    FirstStoredAsHeld(Now(created).world, planned);
    c := MoveStop(def, written, worker);
    forall other ensures PhaseOf(Now(c), other).Idle? {
      assert other != worker ==> PhaseOf(Now(created), other).Idle?;
    }
  }

  /** An idle worker reads the stored iteration. */
  lemma Reads(def: JobDefinition, c: Chain, worker: Id, v: nat, job: JobState) returns (c': Chain)
    requires IsChain(def, c) && Shows(Now(c).world, v, job) && PhaseOf(Now(c), worker).Idle?
    ensures IsChain(def, c') && Now(c') == With(Now(c), worker, Open(job))
    ensures OnlyBy(worker, c.moves) ==> OnlyBy(worker, c'.moves)
  {
    var read := MoveRead(def, c, worker, v, job);
    c' := MoveAdvance(def, read, worker, job);
  }

  /** What a worker holds is stored, as nothing was written since it was read. */
  lemma Saves(def: JobDefinition, c: Chain, worker: Id, v: nat, stored: JobState, phase: Phase) returns (c': Chain, job: JobState)
    requires IsChain(def, c) && Shows(Now(c).world, v, stored) && PhaseOf(Now(c), worker) == phase
    requires (phase.SavingStart? || phase.SavingResult?) && phase.job.version == Some(v) && FromStorage(phase.job.tasks)
    requires phase.job.id == 0 && phase.job.iterNum == 1 && !IsProcessed(phase.job)
    ensures job == phase.job.(version := Some(v + 1))
    ensures IsChain(def, c') && Shows(Now(c').world, v + 1, job) && OthersUntouched(Now(c), Now(c'), worker)
    ensures PhaseOf(Now(c'), worker) == if phase.SavingStart? then Executing(job, phase.task) else Idle
    ensures c'.moves == c.moves + [(worker, Write(true))]
  {
    c' := MoveWrite(def, c, worker, phase);
    job := phase.job.(version := Some(v + 1));
    StoredAsHeld(Now(c).world, v, stored, phase.job);
  }
}
