/**
 * What every copy of a job in the protocol keeps - a sound task graph and an honest verdict - and
 * why each domain operation keeps it.
 */
module ProtocolJobs {
  import opened Base
  import opened Tasks
  import opened Cascades
  import opened Settling
  import opened CascadeLaws
  import opened Jobs
  import opened JobLaws
  import opened Planning
  import opened Protocol
  import opened ProtocolInvariant
  import opened ProtocolSteps
  import Sessions

  /** Task `x` was born in iteration `iterNum` and ranks above its dependencies, all of them at hand. */
  ghost predicate IsBorn(births: Births, iterNum: nat, tasks: TaskMap, x: Id)
    requires x in tasks
  {
    && x in births && births[x].iterNum == iterNum
    && (forall d :: d in tasks[x].dependsOn ==> d in tasks && d in births && births[d].rank < births[x].rank)
  }

  ghost predicate GraphOk(births: Births, iterNum: nat, tasks: TaskMap) {
    tasks != map[] && forall x {:trigger IsBorn(births, iterNum, tasks, x)} :: x in tasks ==> IsBorn(births, iterNum, tasks, x)
  }

  /** A closed iteration has only resolved tasks, failed ones for good, and the verdict they earned. */
  ghost predicate VerdictOk(job: JobState) {
    IsProcessed(job) ==>
      && job.completedAt.Some?
      && AllResolved(job.tasks)
      && (forall x :: x in job.tasks && job.tasks[x].status.Failed? ==> IsTerminallyFailed(job.tasks[x], job.completedAt.value))
      && job.status == if HasLostTasks(job.tasks, job.completedAt.value) then JobFailed else JobCompleted
  }

  ghost predicate JobOk(births: Births, job: JobState) {
    GraphOk(births, job.iterNum, job.tasks) && VerdictOk(job)
  }

  lemma GraphExtends(a: Births, b: Births, iterNum: nat, tasks: TaskMap)
    requires GraphOk(a, iterNum, tasks) && BirthsExtend(a, b)
    ensures GraphOk(b, iterNum, tasks)
  {
    forall x | x in tasks ensures IsBorn(b, iterNum, tasks, x) {
      assert IsBorn(a, iterNum, tasks, x);
    }
  }

  lemma GraphIsClosedAndAcyclic(births: Births, iterNum: nat, tasks: TaskMap)
    requires GraphOk(births, iterNum, tasks)
    ensures DependencyClosed(tasks) && Acyclic(tasks)
  {
    GraphIsRanked(births, iterNum, tasks);
  }

  lemma GraphIsRanked(births: Births, iterNum: nat, tasks: TaskMap)
    requires GraphOk(births, iterNum, tasks)
    ensures DependencyClosed(tasks) && RankedBy(tasks, Ranks(births))
  {
    var rank := Ranks(births);
    forall x, d | x in tasks && d in tasks[x].dependsOn
      ensures x in rank && d in rank && d in tasks && rank[d] < rank[x]
    {
      assert IsBorn(births, iterNum, tasks, x);
    }
    forall x | x in tasks ensures x in rank {
      assert IsBorn(births, iterNum, tasks, x);
    }
  }

  /** The converse: a closed graph of tasks born in one iteration, ranked as they were born. */
  lemma RankedGraphIsOk(births: Births, iterNum: nat, tasks: TaskMap, rank: map<Id, nat>)
    requires tasks != map[] && DependencyClosed(tasks) && RankedBy(tasks, rank)
    requires forall x :: x in tasks ==> x in births && births[x] == Birth(iterNum, rank[x])
    ensures GraphOk(births, iterNum, tasks)
  {
  }

  /** Tasks with the same keys and dependencies make the same graph. */
  lemma GraphFollowsDependencies(births: Births, iterNum: nat, tasks: TaskMap, after: TaskMap)
    requires GraphOk(births, iterNum, tasks) && after.Keys == tasks.Keys
    requires forall x :: x in tasks ==> after[x].dependsOn == tasks[x].dependsOn
    ensures GraphOk(births, iterNum, after)
  {
    forall x | x in after ensures IsBorn(births, iterNum, after, x) {
      assert IsBorn(births, iterNum, tasks, x);
    }
    var x :| x in tasks;
    assert x in after;
  }

  // ----- Verdicts -----

  /** With every failure terminal already, the verdict does not depend on when it is read. */
  lemma VerdictIsTimeless(tasks: TaskMap, now: Moment, later: Moment)
    requires now <= later
    requires forall x :: x in tasks && tasks[x].status.Failed? ==> IsTerminallyFailed(tasks[x], now)
    ensures VerdictOf(tasks, later) == VerdictOf(tasks, now)
  {
    forall f | f in tasks ensures Unanswered(tasks, f, later) <==> Unanswered(tasks, f, now) {
      assert IsTerminallyFailed(tasks[f], later) <==> IsTerminallyFailed(tasks[f], now);
    }
  }

  /** Closing an iteration nothing in which can move. */
  lemma ClosingIsHonest(job: JobState, worker: Id, now: Moment, closedAt: Moment)
    requires !IsProcessed(job) && now <= closedAt && (AnyKeepsOpen(job.tasks, now) || AllResolved(job.tasks))
    ensures var closed := CloseIfSettled(job, worker, now, closedAt);
            && VerdictOk(closed.job) && closed.result != Err(IterationDeadlock)
            && closed.job.tasks == job.tasks
            && closed.job.iterNum == job.iterNum && closed.job.version == job.version && closed.job.id == job.id
            && (IsProcessed(closed.job) <==> closed.result == Ok(true))
            && (!IsProcessed(closed.job) ==> closed.job.status == job.status)
  {
    if !AnyKeepsOpen(job.tasks, now) {
      forall x | x in job.tasks && job.tasks[x].status.Failed?
        ensures IsTerminallyFailed(job.tasks[x], now) && IsTerminallyFailed(job.tasks[x], closedAt)
      {
        assert !KeepsOpen(job.tasks[x], now);
      }
      VerdictIsTimeless(job.tasks, now, closedAt);
      VerdictLaw(job.tasks, closedAt);
    }
  }

  lemma SettlingIsHonest(births: Births, job: JobState, worker: Id, now: Moment, closedAt: Moment)
    requires GraphOk(births, job.iterNum, job.tasks) && !IsProcessed(job) && now <= closedAt
    ensures var settled := TrySettle(job, worker, now, closedAt);
            && JobOk(births, settled.job)
            && settled.result != Err(IterationDeadlock)
            && settled.job.tasks == Derived(job.tasks, now)
            && settled.job.iterNum == job.iterNum && settled.job.version == job.version && settled.job.id == job.id
            && (IsProcessed(settled.job) <==> settled.result == Ok(true))
            && (!IsProcessed(settled.job) ==> settled.job.status == job.status)
  {
    var derived := Derived(job.tasks, now);
    DerivingKeepsGraph(job.tasks, now);
    GraphFollowsDependencies(births, job.iterNum, job.tasks, derived);
    GraphIsClosedAndAcyclic(births, job.iterNum, job.tasks);
    SettlingNeverDeadlocks(job.tasks, now);
    ClosingIsHonest(job.(tasks := derived), worker, now, closedAt);
  }

  // ----- Storing -----

  lemma PersistingKeepsGraph(births: Births, iterNum: nat, tasks: TaskMap, persisted: TaskMap)
    requires GraphOk(births, iterNum, tasks) && persisted == map x | x in tasks :: Restored(tasks[x])
    ensures GraphOk(births, iterNum, persisted)
  {
    GraphFollowsDependencies(births, iterNum, tasks, persisted);
  }

  lemma PersistingKeepsVerdict(tasks: TaskMap, persisted: TaskMap, now: Moment)
    requires persisted == map x | x in tasks :: Restored(tasks[x])
    ensures VerdictOf(persisted, now) == VerdictOf(tasks, now)
    ensures AllResolved(tasks) ==> AllResolved(persisted)
  {
    assert persisted.Keys == tasks.Keys;
    if HasSkippedForFailure(tasks) {
      var x :| x in tasks && tasks[x].status == Skipped(FailedDependency);
      assert persisted[x].status == Skipped(FailedDependency);
    }
    if HasSkippedForFailure(persisted) {
      var x :| x in persisted && persisted[x].status == Skipped(FailedDependency);
      assert tasks[x].status == Skipped(FailedDependency);
    }
    forall f | f in tasks ensures Unanswered(persisted, f, now) <==> Unanswered(tasks, f, now) {
      assert forall x :: x in tasks ==> AnswersFor(persisted[x], f) == AnswersFor(tasks[x], f);
      assert IsTerminallyFailed(persisted[f], now) == IsTerminallyFailed(tasks[f], now);
    }
    if AllResolved(tasks) {
      var x :| x in tasks;
      assert x in persisted;
    }
  }

  lemma PersistingKeepsJob(births: Births, job: JobState, version: nat)
    requires JobOk(births, job)
    ensures JobOk(births, Persisted(job.(version := Some(version))))
    ensures Persisted(job.(version := Some(version))).tasks.Keys == job.tasks.Keys
  {
    var stored := Persisted(job.(version := Some(version)));
    PersistingKeepsGraph(births, job.iterNum, job.tasks, stored.tasks);
    if IsProcessed(job) {
      PersistingKeepsVerdict(job.tasks, stored.tasks, job.completedAt.value);
      VerdictLaw(job.tasks, job.completedAt.value);
      VerdictLaw(stored.tasks, job.completedAt.value);
    }
  }

  // ----- Planning -----

  lemma PlannedJobIsOk(births: Births, def: JobDefinition, jobId: Id, ids: seq<Id>, worker: Id, now: Moment, iterNum: nat)
    requires IsLegal(def) && |ids| == |def.initialTasks| && Distinct(ids)
    requires forall i :: 0 <= i < |ids| ==> ids[i] !in births
    ensures NewJob(def, jobId, ids, worker, now).Ok?
    ensures var job := NewJob(def, jobId, ids, worker, now).value.(iterNum := iterNum);
            && JobOk(births + BirthsOf(def, ids, iterNum), job)
            && !IsProcessed(job) && job.version.None?
            && forall x :: x in job.tasks ==> job.tasks[x].createdByTask.None?
    ensures BirthsExtend(births, births + BirthsOf(def, ids, iterNum))
  {
    PlannedIterationIsSound(def, jobId, ids, worker, now);
    var tasks, rank := NewJob(def, jobId, ids, worker, now).value.tasks, PlannedRank(def, ids);
    PlannedGraphIsOk(births, BirthsOf(def, ids, iterNum), iterNum, tasks, rank);
  }

  lemma PlannedGraphIsOk(births: Births, born: Births, iterNum: nat, tasks: TaskMap, rank: map<Id, nat>)
    requires tasks != map[] && tasks.Keys == rank.Keys == born.Keys
    requires DependencyClosed(tasks) && RankedBy(tasks, rank)
    requires forall x :: x in born ==> x !in births && born[x] == Birth(iterNum, rank[x])
    ensures GraphOk(births + born, iterNum, tasks) && BirthsExtend(births, births + born)
  {
    RankedGraphIsOk(births + born, iterNum, tasks, rank);
  }

  lemma NextIterationIsPlanned(def: JobDefinition, worker: Id, job: JobState, ids: seq<Id>, now: Moment)
    requires |ids| == |def.initialTasks| && NextIterationOf(job, def, ids, worker, now).Ok?
    ensures NewJob(def, job.id, ids, worker, now).Ok?
    ensures NextIterationOf(job, def, ids, worker, now).value
         == NewJob(def, job.id, ids, worker, now).value.(iterNum := job.iterNum + 1)
  {
  }

  // ----- Merging -----

  /** Carrying a started task over keeps the stored graph. */
  lemma PickedMergeKeepsGraph(births: Births, stored: JobState, ours: JobState, worker: Id, id: Id, now: Moment, later: Moment)
    requires JobOk(births, stored) && GraphOk(births, ours.iterNum, ours.tasks) && ours.tasks.Keys <= stored.tasks.Keys
    requires stored.iterNum == ours.iterNum && ours.status.JobRunning?
    requires MergePicked(stored, ours, worker, id, now, later).Ok?
    ensures var merged := MergePicked(stored, ours, worker, id, now, later).value;
            && JobOk(births, merged) && !IsProcessed(stored) && merged.status.JobRunning?
            && merged.tasks.Keys == stored.tasks.Keys
            && merged.iterNum == stored.iterNum && merged.version == stored.version
  {
    var merged := MergePicked(stored, ours, worker, id, now, later).value;
    var failed := FailByLifetime(stored.tasks, now);
    CascadeOnlyPutsOut(failed, later);
    var cascaded := Cascade(failed, later);
    forall x | x in merged.tasks ensures IsBorn(births, stored.iterNum, merged.tasks, x) {
      assert IsBorn(births, stored.iterNum, stored.tasks, x);
      if x == id {
        assert IsBorn(births, ours.iterNum, ours.tasks, x);
      } else {
        assert LeftOrPutOut(failed[x], cascaded[x]);
      }
    }
  }

  /** Carrying a result over keeps the graph, given that nothing the worker's copy holds is missing. */
  lemma MergedTasksKeepGraph(births: Births, iterNum: nat, stored: TaskMap, ours: TaskMap, worker: Id)
    requires GraphOk(births, iterNum, stored) && GraphOk(births, iterNum, ours)
    requires ours.Keys <= MergeTasks(stored, ours, worker).Keys
    ensures GraphOk(births, iterNum, MergeTasks(stored, ours, worker))
  {
    var merged := MergeTasks(stored, ours, worker);
    forall x | x in merged ensures IsBorn(births, iterNum, merged, x) {
      if x in stored {
        assert IsBorn(births, iterNum, stored, x);
      }
      if x in ours {
        assert IsBorn(births, iterNum, ours, x);
      }
    }
    var x :| x in stored;
    assert x in merged;
  }

  // ----- Calls of an execution -----

  lemma NarrowedGraph(births: Births, base: JobState, job: JobState, after: JobState, task: Id)
    requires GraphOk(births, job.iterNum, job.tasks) && Narrows(base, job, after, task)
    requires DependencyClosed(after.tasks) && after.tasks != map[]
    ensures GraphOk(births, after.iterNum, after.tasks)
  {
    forall x | x in after.tasks ensures IsBorn(births, after.iterNum, after.tasks, x) {
      assert IsBorn(births, job.iterNum, job.tasks, x);
    }
  }

  lemma AddedIsBorn(world: World, job: JobState, call: Sessions.Call, after: JobState, rank': map<Id, nat>)
    requires GraphOk(world.births, job.iterNum, job.tasks) && after.iterNum == job.iterNum
    requires call.AddCall? && call.minted !in world.births && after.tasks.Keys == job.tasks.Keys + {call.minted}
    requires rank' == Ranks(world.births)[call.minted := RankAbove(Ranks(world.births), after.tasks[call.minted].dependsOn)]
    ensures var births := Registered(world, call, after).births;
            forall x :: x in after.tasks ==> x in births && births[x] == Birth(job.iterNum, rank'[x])
  {
    forall x | x in job.tasks ensures x in world.births && world.births[x].iterNum == job.iterNum {
      assert IsBorn(world.births, job.iterNum, job.tasks, x);
    }
  }

  /** A registered task ranks above what it depends on, all of it in the iteration. */
  lemma AddedGraph(world: World, job: JobState, call: Sessions.Call, worker: Id, task: Id)
    requires GraphOk(world.births, job.iterNum, job.tasks)
    requires call.AddCall? && call.minted !in world.births && Sessions.Perform(job, call, worker, task).Ok?
    ensures var after := Sessions.Perform(job, call, worker, task).value;
            var births := Registered(world, call, after).births;
            && GraphOk(births, after.iterNum, after.tasks) && BirthsExtend(world.births, births)
            && after.tasks.Keys == job.tasks.Keys + {call.minted}
  {
    var after := Sessions.Perform(job, call, worker, task).value;
    var births := Registered(world, call, after).births;
    GraphIsRanked(world.births, job.iterNum, job.tasks);
    var rank' := AddedTaskKeepsGraph(job, call.def, worker, Some(task), call.minted, Ranks(world.births));
    AddedIsBorn(world, job, call, after, rank');
    RankedGraphIsOk(births, after.iterNum, after.tasks, rank');
  }
}
