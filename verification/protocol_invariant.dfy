/**
 * The shape of every run of the protocol: how versions, iterations and copies relate. Nothing here
 * looks inside a task.
 */
module ProtocolInvariant {
  import opened Base
  import opened Jobs
  import opened Protocol

  type Births = map<Id, Birth>

  ghost predicate BirthsExtend(a: Births, b: Births) {
    forall x :: x in a ==> x in b && b[x] == a[x]
  }

  /** Every task of the job was created in the job's own iteration. */
  ghost predicate Belongs(births: Births, job: JobState) {
    forall x :: x in job.tasks ==> x in births && births[x].iterNum == job.iterNum
  }

  ghost predicate NoneClaimed(job: JobState) {
    forall x :: x in job.tasks ==> job.tasks[x].createdByTask.None?
  }

  // ----- The store -----

  /** The stored iterations are numbered from one to `n`. */
  ghost predicate IsNumbered(store: map<nat, Stored>, n: nat) {
    forall k :: k in store <==> 1 <= k <= n
  }

  /** Iteration `k` is stored as it was last written, and closed unless it is the newest. */
  ghost predicate StoredOk(world: World, n: nat, k: nat)
    requires k in world.store
  {
    && world.store[k].job.iterNum == k
    && world.store[k].version in world.written
    && world.written[world.store[k].version] == world.store[k].job
    && (k < n ==> IsProcessed(world.store[k].job))
  }

  /** No task of a state once written has left its iteration since, and a closed state still stands. */
  ghost predicate WrittenOk(world: World, v: nat)
    requires v in world.written
  {
    && world.written[v].version == Some(v)
    && Belongs(world.births, world.written[v])
    && NoneClaimed(world.written[v])
    && world.written[v].iterNum in world.store
    && world.written[v].tasks.Keys <= world.store[world.written[v].iterNum].job.tasks.Keys
    && (IsProcessed(world.written[v]) ==> world.store[world.written[v].iterNum].job == world.written[v])
  }

  ghost predicate WorldOk(world: World, n: nat) {
    && IsNumbered(world.store, n)
    && (forall v :: v in world.written ==> v < world.nextVersion)
    && (forall k {:trigger StoredOk(world, n, k)} :: k in world.store ==> StoredOk(world, n, k))
    && (forall v {:trigger WrittenOk(world, v)} :: v in world.written ==> WrittenOk(world, v))
  }

  // ----- The copies -----

  /** The copy is a state that was written, as it was written. */
  ghost predicate IsLoaded(world: World, job: JobState) {
    job.version.Some? && job.version.value in world.written && world.written[job.version.value] == job
  }

  /** A task of the copy that its base does not hold: this worker's, owned by nobody. */
  ghost predicate IsGained(base: JobState, job: JobState, worker: Id, x: Id) {
    x in job.tasks && x !in base.tasks ==>
      job.tasks[x].createdByWorker == worker && job.tasks[x].owner.None?
  }

  /** The copy has lost none of `base`'s tasks, and those it gained are this worker's. */
  ghost predicate Descends(base: JobState, job: JobState, worker: Id) {
    && base.iterNum == job.iterNum && !IsProcessed(base)
    && base.tasks.Keys <= job.tasks.Keys
    && (forall x {:trigger IsGained(base, job, worker, x)} :: IsGained(base, job, worker, x))
  }

  ghost predicate IsBased(world: World, worker: Id, job: JobState) {
    && job.version.Some? && job.version.value in world.written
    && Belongs(world.births, job)
    && Descends(world.written[job.version.value], job, worker)
  }

  ghost predicate IsStarting(world: World, worker: Id, job: JobState, task: Id) {
    && IsBased(world, worker, job)
    && job.tasks.Keys == world.written[job.version.value].tasks.Keys
    && task in job.tasks && job.tasks[task].status.Started? && job.status.JobRunning?
    && NoneClaimed(job)
  }

  /** What an execution has registered is attributed to it, and nothing else is. */
  ghost predicate IsAttributed(base: JobState, job: JobState, task: Id) {
    && task in base.tasks && task in job.tasks
    && (forall x :: x in job.tasks ==> job.tasks[x].createdByTask == if x in base.tasks then None else Some(task))
    && (forall x :: x in job.tasks && x !in base.tasks ==> !job.tasks[x].status.Started?)
  }

  ghost predicate IsExecuting(world: World, worker: Id, job: JobState, task: Id) {
    && IsBased(world, worker, job) && !IsProcessed(job)
    && IsAttributed(world.written[job.version.value], job, task)
  }

  ghost predicate IsFreshIteration(world: World, job: JobState) {
    && job.version.None? && Belongs(world.births, job) && !IsProcessed(job) && NoneClaimed(job)
    && 1 <= job.iterNum
    && (1 < job.iterNum ==> job.iterNum - 1 in world.store && IsProcessed(world.store[job.iterNum - 1].job))
  }

  ghost predicate PhaseOk(world: World, worker: Id, phase: Phase) {
    match phase
    case Idle => true
    case Advancing(job) => IsLoaded(world, job)
    case Open(job) => IsLoaded(world, job) && !IsProcessed(job)
    case SavingIteration(job) => IsFreshIteration(world, job)
    case SavingSettled(job) => IsBased(world, worker, job)
    case SavingStart(job, task) => IsStarting(world, worker, job, task)
    case Executing(job, task) => IsExecuting(world, worker, job, task)
    case SavingResult(job, task) =>
      IsBased(world, worker, job) && task in job.tasks && task in world.written[job.version.value].tasks
  }

  // ----- What a step leaves to the other workers -----

  /** History only grows, and a closed iteration stays as it was stored. */
  ghost predicate Extends(a: World, b: World) {
    && (forall v :: v in a.written ==> v in b.written && b.written[v] == a.written[v])
    && BirthsExtend(a.births, b.births)
    && (forall k :: k in a.store ==> k in b.store)
    && (forall k :: k in a.store && IsProcessed(a.store[k].job) ==> b.store[k] == a.store[k])
  }

  lemma PhaseStays(a: World, b: World, worker: Id, phase: Phase)
    requires PhaseOk(a, worker, phase) && Extends(a, b)
    ensures PhaseOk(b, worker, phase)
  {
  }

  lemma MintingKeepsWorld(world: World, n: nat, births: Births)
    requires WorldOk(world, n) && BirthsExtend(world.births, births)
    ensures WorldOk(world.(births := births), n) && Extends(world, world.(births := births))
  {
    var after := world.(births := births);
    forall v | v in after.written ensures WrittenOk(after, v) {
      assert WrittenOk(world, v);
    }
    forall k | k in after.store ensures StoredOk(after, n, k) {
      assert StoredOk(world, n, k);
    }
  }

  lemma LastIsNewest(store: map<nat, Stored>, n: nat)
    requires IsNumbered(store, n)
    ensures Newest(store) == n
    ensures n > 0 <==> n in store
  {
    if n > 0 {
      assert n in store && forall k :: k in store ==> k <= n;
    } else {
      assert forall k :: k !in store;
    }
  }

  lemma NewestIsLoaded(world: World, n: nat)
    requires WorldOk(world, n) && n > 0
    ensures n in world.store && IsLoaded(world, world.store[n].job) && world.store[n].job.iterNum == n
    ensures NoneClaimed(world.store[n].job) && Belongs(world.births, world.store[n].job)
  {
    assert StoredOk(world, n, n);
    assert WrittenOk(world, world.store[n].version);
  }

  // ----- Writing -----

  /** A state that may be written over iteration `n`, or right behind it. */
  ghost predicate IsWritable(world: World, n: nat, job: JobState) {
    && Belongs(world.births, job) && 0 < job.iterNum
    && (job.iterNum == n || job.iterNum == n + 1)
    && (job.iterNum == n + 1 && n in world.store ==> IsProcessed(world.store[n].job))
    && (job.iterNum in world.store ==>
          && !IsProcessed(world.store[job.iterNum].job)
          && world.store[job.iterNum].job.tasks.Keys <= job.tasks.Keys)
  }

  /** A conditional write only ever lands on an open iteration, or right behind the last one. */
  lemma AllowedWriteIsWritable(world: World, n: nat, worker: Id, phase: Phase)
    requires WorldOk(world, n) && PhaseOk(world, worker, phase) && IsSaving(phase)
    requires IsWriteAllowed(world, phase.job)
    ensures IsWritable(world, n, phase.job)
  {
    var job := phase.job;
    if job.version.None? {
      assert IsFreshIteration(world, job);
    } else {
      assert IsBased(world, worker, job);
      assert StoredOk(world, n, job.iterNum);
    }
  }

  lemma WriteKeepsWritten(world: World, n: nat, job: JobState)
    requires WorldOk(world, n) && IsWritable(world, n, job)
    ensures forall v :: v in Written(world, job).written ==> WrittenOk(Written(world, job), v)
  {
    var after := Written(world, job);
    forall v | v in after.written ensures WrittenOk(after, v) {
      if v != world.nextVersion {
        assert WrittenOk(world, v);
      }
    }
  }

  lemma WriteKeepsStored(world: World, n: nat, job: JobState)
    requires forall k :: k in world.store ==> StoredOk(world, n, k)
    requires forall v :: v in world.written ==> v < world.nextVersion
    requires IsNumbered(world.store, n) && IsWritable(world, n, job)
    ensures IsNumbered(Written(world, job).store, job.iterNum)
    ensures forall k :: k in Written(world, job).store ==> StoredOk(Written(world, job), job.iterNum, k)
  {
    var after := Written(world, job);
    forall k | k in after.store ensures StoredOk(after, job.iterNum, k) {
      if k != job.iterNum {
        assert StoredOk(world, n, k);
      }
    }
  }

  lemma WriteKeepsWorld(world: World, n: nat, job: JobState)
    requires WorldOk(world, n) && IsWritable(world, n, job)
    ensures WorldOk(Written(world, job), job.iterNum)
    ensures Extends(world, Written(world, job))
  {
    WriteKeepsWritten(world, n, job);
    WriteKeepsStored(world, n, job);
  }

  /** An acknowledged write leaves the worker with the state it wrote. */
  lemma AcknowledgedPhaseIsOk(world: World, worker: Id, phase: Phase)
    requires PhaseOk(world, worker, phase) && IsSaving(phase)
    ensures PhaseOk(Written(world, phase.job), worker, AfterWrite(phase, world.nextVersion))
  {
    var versioned := phase.job.(version := Some(world.nextVersion));
    if phase.SavingIteration? || phase.SavingStart? {
      assert Persisted(versioned).tasks == versioned.tasks;
    }
  }
}
