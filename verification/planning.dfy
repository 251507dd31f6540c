/**
 * Where an iteration's tasks come from: a validated description, and tasks registered at runtime.
 * Both only ever build non-empty, dependency-closed, acyclic task graphs.
 */
module Planning {
  import opened Base
  import opened Tasks
  import opened Cascades
  import opened Settling
  import opened Jobs
  import Cycles

  /** Every reference names a position of this very description. */
  predicate RefsInRange(id: Id, tasks: seq<TaskDefinition>) {
    forall i, k :: 0 <= i < |tasks| && 0 <= k < |tasks[i].dependsOn| ==>
      && tasks[i].dependsOn[k].Initial?
      && tasks[i].dependsOn[k].definition == id
      && tasks[i].dependsOn[k].position < |tasks|
  }

  /** The positions each initial task depends on. */
  function GraphOf(tasks: seq<TaskDefinition>): (g: Cycles.Graph)
    requires forall i, k :: 0 <= i < |tasks| && 0 <= k < |tasks[i].dependsOn| ==> tasks[i].dependsOn[k].Initial?
    ensures |g| == |tasks|
  {
    seq(|tasks|, i requires 0 <= i < |tasks| =>
      seq(|tasks[i].dependsOn|, k requires 0 <= k < |tasks[i].dependsOn| => tasks[i].dependsOn[k].position))
  }

  /** A description `JobDefinition` accepts. */
  ghost predicate IsLegal(def: JobDefinition) {
    && def.initialTasks != []
    && (forall i :: 0 <= i < |def.initialTasks| ==>
          && Validate(def.initialTasks[i], def.settings.maxInputSize).Ok?
          && DeclaresToleranceValid(def.initialTasks[i]))
    && RefsInRange(def.id, def.initialTasks)
    && exists rank :: Cycles.IsRank(GraphOf(def.initialTasks), rank)
  }

  /** Accepts exactly the legal descriptions. */
  method DefineJob(def: JobDefinition) returns (r: Result<JobDefinition>)
    ensures r.Ok? <==> IsLegal(def)
    ensures r.Ok? ==> r.value == def
  {
    var tasks := def.initialTasks;
    if tasks == [] {
      return Err(Other);
    }
    for i := 0 to |tasks|
      invariant forall j :: 0 <= j < i ==> Validate(tasks[j], def.settings.maxInputSize).Ok?
    {
      if Validate(tasks[i], def.settings.maxInputSize).Err? {
        return Err(Other);
      }
    }
    var graph: Cycles.Graph := [];
    for i := 0 to |tasks|
      invariant forall j :: 0 <= j < i ==> DeclaresToleranceValid(tasks[j])
      invariant forall j, k :: 0 <= j < i && 0 <= k < |tasks[j].dependsOn| ==>
                  && tasks[j].dependsOn[k].Initial?
                  && tasks[j].dependsOn[k].definition == def.id
                  && tasks[j].dependsOn[k].position < |tasks|
      invariant |graph| == i
      invariant forall j :: 0 <= j < i ==> |graph[j]| == |tasks[j].dependsOn|
      invariant forall j, k :: 0 <= j < i && 0 <= k < |graph[j]| ==> graph[j][k] == tasks[j].dependsOn[k].position
    {
      if !DeclaresToleranceValid(tasks[i]) {
        return Err(Other);
      }
      var positions := ResolvePositions(def.id, tasks[i].dependsOn, |tasks|);
      if positions.Err? {
        return Err(Other);
      }
      graph := graph + [positions.value];
    }
    assert graph == GraphOf(tasks) by {
      assert forall j :: 0 <= j < |tasks| ==> graph[j] == GraphOf(tasks)[j];
    }
    var cycle := Cycles.FindDependencyCycle(graph);
    return if cycle.Some? then Err(Other) else Ok(def);
  }

  method ResolvePositions(id: Id, refs: seq<TaskRef>, count: nat) returns (r: Result<seq<int>>)
    ensures r.Ok? <==> forall k :: 0 <= k < |refs| ==>
                         refs[k].Initial? && refs[k].definition == id && refs[k].position < count
    ensures r.Ok? ==> |r.value| == |refs|
    ensures r.Ok? ==> forall k :: 0 <= k < |refs| ==> r.value[k] == refs[k].position
  {
    var positions: seq<int> := [];
    for i := 0 to |refs|
      invariant |positions| == i
      invariant forall k :: 0 <= k < i ==> refs[k].Initial? && refs[k].definition == id && refs[k].position < count
      invariant forall k :: 0 <= k < i ==> positions[k] == refs[k].position
    {
      if refs[i].Created? || refs[i].definition != id || refs[i].position >= count {
        return Err(Other);
      }
      positions := positions + [refs[i].position];
    }
    return Ok(positions);
  }

  // ----- Assembling a description -----

  /** Dependencies declared beside the definition of the task they are for. */
  datatype Declaration = Declaration(task: TaskRef, dependencies: seq<TaskRef>)

  /** An executor under the code of the tasks it runs. */
  datatype Registration = Registration(code: Id, executor: Id)

  predicate NamesPosition(id: Id, task: TaskRef, count: nat) {
    task.Initial? && task.definition == id && task.position < count
  }

  /** What the task at `position` waits for once the declarations are added, one after the other. */
  function DeclaredFor(own: seq<TaskRef>, declared: seq<Declaration>, position: nat): (refs: seq<TaskRef>)
    ensures forall d :: d in refs <==>
              d in own || exists k :: 0 <= k < |declared| && declared[k].task.Initial?
                                      && declared[k].task.position == position && d in declared[k].dependencies
  {
    if declared == [] then own
    else
      var last := declared[|declared| - 1];
      var before := DeclaredFor(own, declared[..|declared| - 1], position);
      assert declared == declared[..|declared| - 1] + [last];
      if last.task.Initial? && last.task.position == position then before + last.dependencies else before
  }

  function WithDeclared(tasks: seq<TaskDefinition>, declared: seq<Declaration>): (merged: seq<TaskDefinition>)
    ensures |merged| == |tasks|
  {
    seq(|tasks|, i requires 0 <= i < |tasks| => tasks[i].(dependsOn := DeclaredFor(tasks[i].dependsOn, declared, i)))
  }

  /** Adds every declaration to the task it names; refused exactly if one names no task of the description. */
  method MergeDeclared(id: Id, tasks: seq<TaskDefinition>, declared: seq<Declaration>) returns (r: Result<seq<TaskDefinition>>)
    ensures r.Ok? <==> forall k :: 0 <= k < |declared| ==> NamesPosition(id, declared[k].task, |tasks|)
    ensures r.Ok? ==> r.value == WithDeclared(tasks, declared)
  {
    var merged := tasks;
    for k := 0 to |declared|
      invariant |merged| == |tasks|
      invariant forall j :: 0 <= j < k ==> NamesPosition(id, declared[j].task, |tasks|)
      invariant forall i :: 0 <= i < |tasks| ==>
                  merged[i] == tasks[i].(dependsOn := DeclaredFor(tasks[i].dependsOn, declared[..k], i))
    {
      if !NamesPosition(id, declared[k].task, |tasks|) {
        return Err(Other);
      }
      assert declared[..k + 1][..k] == declared[..k];
      var position := declared[k].task.position;
      merged := merged[position := merged[position].(dependsOn := merged[position].dependsOn + declared[k].dependencies)];
    }
    assert declared[..|declared|] == declared;
    assert merged == WithDeclared(tasks, declared);
    return Ok(merged);
  }

  predicate OneExecutorEach(registrations: seq<Registration>) {
    forall i, j :: 0 <= i < |registrations| && 0 <= j < |registrations| && registrations[i].code == registrations[j].code ==>
      registrations[i].executor == registrations[j].executor
  }

  /** Registering an executor twice is fine; two different ones under a code are refused. */
  method RegisterExecutors(registrations: seq<Registration>) returns (r: Result<map<Id, Id>>)
    ensures r.Ok? <==> OneExecutorEach(registrations)
    ensures r.Ok? ==> forall i :: 0 <= i < |registrations| ==>
              registrations[i].code in r.value && r.value[registrations[i].code] == registrations[i].executor
    ensures r.Ok? ==> forall code :: code in r.value ==> exists i :: 0 <= i < |registrations| && registrations[i].code == code
  {
    var executors: map<Id, Id> := map[];
    for k := 0 to |registrations|
      invariant forall i :: 0 <= i < k ==>
                  registrations[i].code in executors && executors[registrations[i].code] == registrations[i].executor
      invariant forall code :: code in executors ==>
                  exists i :: 0 <= i < k && registrations[i].code == code && registrations[i].executor == executors[code]
    {
      var next := registrations[k];
      if next.code in executors {
        if executors[next.code] != next.executor {
          return Err(Other);
        }
      } else {
        executors := executors[next.code := next.executor];
      }
      assert registrations[k].code == next.code && registrations[k].executor == executors[next.code];
    }
    return Ok(executors);
  }

  /** Assembles a description from its parts; accepted exactly if they agree and make a legal one. */
  method AssembleJob(def: JobDefinition, registrations: seq<Registration>, declared: seq<Declaration>)
    returns (r: Result<JobDefinition>)
    ensures r.Ok? <==>
            && OneExecutorEach(registrations)
            && (forall k :: 0 <= k < |declared| ==> NamesPosition(def.id, declared[k].task, |def.initialTasks|))
            && IsLegal(def.(initialTasks := WithDeclared(def.initialTasks, declared)))
    ensures r.Ok? ==> r.value == def.(initialTasks := WithDeclared(def.initialTasks, declared))
  {
    var executors := RegisterExecutors(registrations);
    if executors.Err? {
      return Err(Other);
    }
    var merged := MergeDeclared(def.id, def.initialTasks, declared);
    if merged.Err? {
      return Err(Other);
    }
    r := DefineJob(def.(initialTasks := merged.value));
  }

  // ----- Planned iterations -----

  lemma {:induction false} ResolvedInitial(refs: seq<TaskRef>, ids: seq<Id>)
    requires forall k :: 0 <= k < |refs| ==> refs[k].Initial? && refs[k].position < |ids|
    ensures ResolveInitial(refs, ids).Ok? && |ResolveInitial(refs, ids).value| == |refs|
    ensures forall k :: 0 <= k < |refs| ==> ResolveInitial(refs, ids).value[k] == ids[refs[k].position]
  {
    if refs != [] {
      ResolvedInitial(refs[1..], ids);
    }
  }

  function IdSet(ids: seq<Id>): set<Id> {
    set id | id in ids
  }

  ghost predicate PlannedAt(def: JobDefinition, ids: seq<Id>, worker: Id, tasks: TaskMap, i: nat)
    requires i < |ids| == |def.initialTasks|
  {
    && ids[i] in tasks
    && ResolveInitial(def.initialTasks[i].dependsOn, ids).Ok?
    && tasks[ids[i]] == NewTask(worker, None, def.initialTasks[i], ResolveInitial(def.initialTasks[i].dependsOn, ids).value)
  }

  lemma {:induction false} PlannedTasks(def: JobDefinition, ids: seq<Id>, worker: Id, n: nat)
    requires RefsInRange(def.id, def.initialTasks)
    requires n <= |def.initialTasks| == |ids| && Distinct(ids)
    ensures PlanTasks(def.initialTasks, ids, worker, n).Ok?
    ensures var tasks := PlanTasks(def.initialTasks, ids, worker, n).value;
            tasks.Keys == IdSet(ids[..n]) && forall i :: 0 <= i < n ==> PlannedAt(def, ids, worker, tasks, i)
  {
    if n > 0 {
      PlannedTasks(def, ids, worker, n - 1);
      ResolvedInitial(def.initialTasks[n - 1].dependsOn, ids);
      assert ids[..n] == ids[..n - 1] + [ids[n - 1]];
      var before, tasks := PlanTasks(def.initialTasks, ids, worker, n - 1).value, PlanTasks(def.initialTasks, ids, worker, n).value;
      forall i | 0 <= i < n ensures PlannedAt(def, ids, worker, tasks, i) {
        assert i < n - 1 ==> PlannedAt(def, ids, worker, before, i);
      }
    }
  }

  lemma PlannedDependency(def: JobDefinition, ids: seq<Id>, worker: Id, tasks: TaskMap, order: seq<int>, i: nat, d: Id)
    returns (position: nat)
    requires RefsInRange(def.id, def.initialTasks) && |ids| == |def.initialTasks|
    requires Cycles.IsRank(GraphOf(def.initialTasks), order)
    requires i < |ids| && PlannedAt(def, ids, worker, tasks, i) && d in tasks[ids[i]].dependsOn
    ensures position < |ids| && d == ids[position] && order[position] < order[i]
  {
    var refs := def.initialTasks[i].dependsOn;
    ResolvedInitial(refs, ids);
    var k :| 0 <= k < |refs| && ResolveInitial(refs, ids).value[k] == d;
    position := refs[k].position;
    assert GraphOf(def.initialTasks)[i][k] == position;
  }

  /** Ranks identifiers as `order` ranks their positions. */
  ghost function RankOf(ids: seq<Id>, order: seq<int>): (rank: map<Id, nat>)
    requires |ids| == |order| && Distinct(ids) && forall i :: 0 <= i < |order| ==> 0 <= order[i]
    ensures rank.Keys == IdSet(ids) && forall i :: 0 <= i < |ids| ==> rank[ids[i]] == order[i]
  {
    if ids == [] then map[]
    else
      var n := |ids| - 1;
      assert ids == ids[..n] + [ids[n]];
      RankOf(ids[..n], order[..n])[ids[n] := order[n]]
  }

  lemma {:induction false} PlannedGraph(def: JobDefinition, ids: seq<Id>, worker: Id, tasks: TaskMap, order: seq<int>)
    requires RefsInRange(def.id, def.initialTasks) && |ids| == |def.initialTasks| && Distinct(ids)
    requires Cycles.IsRank(GraphOf(def.initialTasks), order)
    requires tasks.Keys == IdSet(ids) && forall i :: 0 <= i < |ids| ==> PlannedAt(def, ids, worker, tasks, i)
    ensures DependencyClosed(tasks) && RankedBy(tasks, RankOf(ids, order))
    ensures forall id :: id in tasks ==>
              tasks[id].createdByTask.None? && tasks[id].owner.None? && !IsResolved(tasks[id])
  {
    var rank := RankOf(ids, order);
    forall id | id in tasks
      ensures tasks[id].createdByTask.None? && tasks[id].owner.None? && !IsResolved(tasks[id])
      ensures forall d :: d in tasks[id].dependsOn ==> d in tasks && rank[d] < rank[id]
    {
      var i :| 0 <= i < |ids| && ids[i] == id;
      assert PlannedAt(def, ids, worker, tasks, i);
      forall d | d in tasks[id].dependsOn ensures d in tasks && rank[d] < rank[id] {
        var position := PlannedDependency(def, ids, worker, tasks, order, i, d);
        assert ids[position] in IdSet(ids);
      }
    }
  }

  /** A rank over the minted identifiers that the description's own order induces. */
  ghost function PlannedRank(def: JobDefinition, ids: seq<Id>): (rank: map<Id, nat>)
    requires IsLegal(def) && |ids| == |def.initialTasks| && Distinct(ids)
    ensures rank.Keys == IdSet(ids)
  {
    var order :| Cycles.IsRank(GraphOf(def.initialTasks), order);
    RankOf(ids, order)
  }

  /** A legal description plans a non-empty, closed, ranked graph over exactly the minted identifiers. */
  lemma PlannedIterationIsSound(def: JobDefinition, jobId: Id, ids: seq<Id>, worker: Id, now: Moment)
    requires IsLegal(def) && |ids| == |def.initialTasks| && Distinct(ids)
    ensures NewJob(def, jobId, ids, worker, now).Ok?
    ensures var job := NewJob(def, jobId, ids, worker, now).value;
            && job.tasks.Keys == IdSet(ids) && job.tasks != map[]
            && DependencyClosed(job.tasks) && RankedBy(job.tasks, PlannedRank(def, ids))
            && (forall id :: id in job.tasks ==>
                  job.tasks[id].createdByTask.None? && job.tasks[id].owner.None? && !IsResolved(job.tasks[id]))
  {
    PlannedTasks(def, ids, worker, |ids|);
    assert ids[..|ids|] == ids;
    var tasks := PlanTasks(def.initialTasks, ids, worker, |ids|).value;
    assert ids[0] in tasks;
    var order :| Cycles.IsRank(GraphOf(def.initialTasks), order) && PlannedRank(def, ids) == RankOf(ids, order);
    PlannedGraph(def, ids, worker, tasks, order);
  }

  // ----- Tasks registered at runtime -----

  lemma {:induction false} ResolvedCreated(refs: seq<TaskRef>, tasks: TaskMap)
    requires ResolveCreated(refs, tasks).Ok?
    ensures forall d :: d in ResolveCreated(refs, tasks).value ==> d in tasks
  {
    if refs != [] {
      ResolvedCreated(refs[1..], tasks);
    }
  }

  ghost function RankAbove(rank: map<Id, nat>, deps: seq<Id>): (r: nat)
    ensures forall d :: d in deps && d in rank ==> rank[d] < r
  {
    if deps == [] then 0
    else
      var below := RankAbove(rank, deps[1..]);
      if deps[0] in rank && below <= rank[deps[0]] then rank[deps[0]] + 1 else below
  }

  /** A registered task only depends on tasks the iteration already holds, so it ranks above them. */
  lemma AddedTaskKeepsGraph(job: JobState, def: TaskDefinition, worker: Id, creator: Option<Id>, minted: Id,
                            rank: map<Id, nat>) returns (rank': map<Id, nat>)
    requires AddTask(job, def, worker, creator, minted).Ok?
    requires DependencyClosed(job.tasks) && RankedBy(job.tasks, rank) && minted !in rank
    ensures rank' == rank[minted := RankAbove(rank, AddTask(job, def, worker, creator, minted).value.tasks[minted].dependsOn)]
    ensures var job' := AddTask(job, def, worker, creator, minted).value;
            && job'.tasks.Keys == job.tasks.Keys + {minted}
            && DependencyClosed(job'.tasks) && RankedBy(job'.tasks, rank')
  {
    ResolvedCreated(def.dependsOn, job.tasks);
    var deps := ResolveCreated(def.dependsOn, job.tasks).value;
    rank' := rank[minted := RankAbove(rank, deps)];
  }
}
