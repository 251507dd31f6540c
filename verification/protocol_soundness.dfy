/**
 * What is inside the copies: in every run each of them keeps a sound task graph and an honest
 * verdict, so no step ever meets a deadlock.
 */
module ProtocolSoundness {
  import opened Base
  import opened Jobs
  import opened JobObject
  import opened Planning
  import opened Protocol
  import opened ProtocolInvariant
  import opened ProtocolSteps
  import opened ProtocolJobs
  import Sessions

  ghost predicate SoundAt(world: World, v: nat)
    requires v in world.written
  {
    JobOk(world.births, world.written[v])
  }

  ghost predicate WorldSound(world: World) {
    forall v {:trigger SoundAt(world, v)} :: v in world.written ==> SoundAt(world, v)
  }

  /** An execution's plan is whole relative to the stored state it works on. */
  ghost predicate PlanSound(world: World, job: JobState, task: Id) {
    && job.version.Some? && job.version.value in world.written
    && Sessions.PlanIsWhole(world.written[job.version.value], job,
                            job.tasks.Keys - world.written[job.version.value].tasks.Keys, task)
  }

  ghost predicate PhaseSound(world: World, phase: Phase) {
    && (!phase.Idle? ==> JobOk(world.births, phase.job))
    && (phase.Executing? ==> PlanSound(world, phase.job, phase.task))
  }

  lemma SoundnessStays(a: World, b: World, phase: Phase)
    requires PhaseSound(a, phase) && Extends(a, b)
    ensures PhaseSound(b, phase)
  {
    if !phase.Idle? {
      GraphExtends(a.births, b.births, phase.job.iterNum, phase.job.tasks);
    }
  }

  lemma MintingKeepsSound(world: World, births: Births)
    requires WorldSound(world) && BirthsExtend(world.births, births)
    ensures WorldSound(world.(births := births))
  {
    forall v | v in world.written ensures SoundAt(world.(births := births), v) {
      assert SoundAt(world, v);
      GraphExtends(world.births, births, world.written[v].iterNum, world.written[v].tasks);
    }
  }

  // ----- Planning and writing -----

  lemma PlanningIsSound(def: JobDefinition, world: World, jobId: Id, ids: seq<Id>, worker: Id, now: Moment, iterNum: nat)
    requires IsLegal(def) && WorldSound(world) && |ids| == |def.initialTasks| && AreFresh(world, ids)
    ensures NewJob(def, jobId, ids, worker, now).Ok?
    ensures var world' := world.(births := world.births + BirthsOf(def, ids, iterNum));
            && WorldSound(world')
            && PhaseSound(world', SavingIteration(NewJob(def, jobId, ids, worker, now).value.(iterNum := iterNum)))
  {
    PlannedJobIsOk(world.births, def, jobId, ids, worker, now, iterNum);
    MintingKeepsSound(world, world.births + BirthsOf(def, ids, iterNum));
  }

  lemma WriteIsSound(world: World, phase: Phase)
    requires WorldSound(world) && PhaseSound(world, phase) && IsSaving(phase)
    requires phase.SavingStart? ==> NoneClaimed(phase.job) && phase.task in phase.job.tasks && phase.job.tasks[phase.task].status.Started?
    ensures WorldSound(Written(world, phase.job))
    ensures PhaseSound(Written(world, phase.job), AfterWrite(phase, world.nextVersion))
  {
    var job, world' := phase.job, Written(world, phase.job);
    PersistingKeepsJob(world.births, job, world.nextVersion);
    forall v | v in world'.written ensures SoundAt(world', v) {
      if v != world.nextVersion {
        assert SoundAt(world, v);
      }
    }
    if phase.SavingStart? {
      StoredPlanIsWhole(world.births, job, world.nextVersion, phase.task);
    }
  }

  lemma StoredPlanIsWhole(births: Births, job: JobState, version: nat, task: Id)
    requires GraphOk(births, job.iterNum, job.tasks) && NoneClaimed(job)
    requires task in job.tasks && job.tasks[task].status.Started?
    ensures var versioned := job.(version := Some(version));
            && Persisted(versioned) == versioned
            && Sessions.PlanIsWhole(Persisted(versioned), versioned, versioned.tasks.Keys - Persisted(versioned).tasks.Keys, task)
  {
    var versioned := job.(version := Some(version));
    assert Persisted(versioned).tasks == versioned.tasks;
    GraphIsClosedAndAcyclic(births, job.iterNum, job.tasks);
  }

  // ----- Looking for work -----

  lemma StartIsSound(births: Births, job: JobState, worker: Id, choice: Id, startAt: Moment)
    requires JobOk(births, job) && !IsProcessed(job)
    ensures AfterStart(job, worker, choice, startAt).SavingStart? ==> JobOk(births, AfterStart(job, worker, choice, startAt).job)
  {
    if StartTask(job, choice, worker, startAt).Ok? {
      GraphFollowsDependencies(births, job.iterNum, job.tasks, StartTask(job, choice, worker, startAt).value.tasks);
    }
  }

  lemma PreparingIsSound(births: Births, job: JobState, worker: Id, r: PickReadings)
    requires JobOk(births, job) && Prepared(job, worker, r).Ok?
    ensures JobOk(births, Prepared(job, worker, r).value) && Prepared(job, worker, r).value.status.JobRunning?
  {
    GraphFollowsDependencies(births, job.iterNum, job.tasks, Prepared(job, worker, r).value.tasks);
  }

  lemma SettlingAfterPickIsSound(births: Births, prepared: JobState, worker: Id, r: PickReadings, choice: Id, startAt: Moment)
    requires JobOk(births, prepared) && !IsProcessed(prepared) && r.settleAt <= r.closedAt
    ensures var phase := AfterSettling(prepared, worker, r, choice, startAt);
            !phase.Executing? && (!phase.Idle? ==> JobOk(births, phase.job))
    ensures TrySettle(prepared, worker, r.settleAt, r.closedAt).result != Err(IterationDeadlock)
  {
    SettlingIsHonest(births, prepared, worker, r.settleAt, r.closedAt);
    var settled := TrySettle(prepared, worker, r.settleAt, r.closedAt).job;
    if !IsProcessed(settled) {
      StartIsSound(births, settled, worker, choice, startAt);
    }
  }

  lemma PickIsSound(births: Births, job: JobState, worker: Id, r: PickReadings, choice: Id, startAt: Moment)
    requires JobOk(births, job) && r.settleAt <= r.closedAt
    ensures var phase := AfterPick(job, worker, r, choice, startAt);
            !phase.Executing? && (!phase.Idle? ==> JobOk(births, phase.job))
    ensures Prepared(job, worker, r).Ok? ==>
              TrySettle(Prepared(job, worker, r).value, worker, r.settleAt, r.closedAt).result != Err(IterationDeadlock)
  {
    if Prepared(job, worker, r).Ok? {
      PreparingIsSound(births, job, worker, r);
      StartIsSound(births, Prepared(job, worker, r).value, worker, choice, startAt);
      SettlingAfterPickIsSound(births, Prepared(job, worker, r).value, worker, r, choice, startAt);
    }
  }

  // ----- Merging -----

  lemma PickedMergeIsSound(world: World, n: nat, worker: Id, job: JobState, task: Id, now: Moment, later: Moment)
    requires WorldOk(world, n) && n in world.store && IsStarting(world, worker, job, task)
    requires JobOk(world.births, world.store[n].job) && JobOk(world.births, job)
    requires MergePicked(world.store[n].job, job, worker, task, now, later).Ok?
    ensures JobOk(world.births, MergePicked(world.store[n].job, job, worker, task, now, later).value)
  {
    SharedTaskSharesIteration(world, n, worker, job, task);
    PickedMergeKeepsGraph(world.births, world.store[n].job, job, worker, task, now, later);
  }

  lemma CarriedOverIsSound(births: Births, saved: JobState, job: JobState, worker: Id, now: Moment, later: Moment)
    requires GraphOk(births, saved.iterNum, saved.tasks) && GraphOk(births, job.iterNum, job.tasks)
    requires saved.iterNum == job.iterNum && now <= later
    requires CarriedOver(saved, job, worker, now).tasks.Keys == saved.tasks.Keys + job.tasks.Keys
    ensures var settled := TrySettle(CarriedOver(saved, job, worker, now), worker, now, later);
            JobOk(births, settled.job) && settled.result != Err(IterationDeadlock)
  {
    MergedTasksKeepGraph(births, saved.iterNum, saved.tasks, job.tasks, worker);
    SettlingIsHonest(births, CarriedOver(saved, job, worker, now), worker, now, later);
  }

  lemma ProcessedMergeIsSound(world: World, n: nat, worker: Id, job: JobState, task: Id, now: Moment, later: Moment)
    requires WorldOk(world, n) && n in world.store && IsBased(world, worker, job) && task in job.tasks && now <= later
    requires JobOk(world.births, world.store[n].job) && JobOk(world.births, job)
    ensures var merged := MergeProcessed(world.store[n].job, job, worker, task, now, later);
            && merged.result != Err(IterationDeadlock)
            && (merged.result.Ok? ==> JobOk(world.births, merged.job))
  {
    var saved := world.store[n].job;
    ProcessedMergeIsSettledCarry(saved, job, worker, task, now, later);
    if task in saved.tasks && !IsProcessed(saved) {
      NewestIsLoaded(world, n);
      ProcessedMergeKeepsPhase(world, n, worker, job, task, now, later);
      CarriedOverIsSound(world.births, saved, job, worker, now, later);
    }
  }

  lemma ConflictIsSound(world: World, n: nat, worker: Id, phase: Phase, now: Moment, later: Moment)
    requires WorldOk(world, n) && PhaseOk(world, worker, phase) && IsSaving(phase) && n in world.store && now <= later
    requires JobOk(world.births, world.store[n].job) && JobOk(world.births, phase.job)
    ensures var after := AfterConflict(phase, worker, world.store[n].job, now, later);
            !after.Executing? && (!after.Idle? ==> JobOk(world.births, after.job))
  {
    if phase.SavingStart? && MergePicked(world.store[n].job, phase.job, worker, phase.task, now, later).Ok? {
      PickedMergeIsSound(world, n, worker, phase.job, phase.task, now, later);
    } else if phase.SavingResult? {
      ProcessedMergeIsSound(world, n, worker, phase.job, phase.task, now, later);
    }
  }

  // ----- Executing -----

  lemma PlanIsItsOwnRegister(start: JobState, job: JobState, registered: set<Id>, task: Id)
    requires Sessions.PlanIsWhole(start, job, registered, task)
    ensures Sessions.PlanIsWhole(start, job, job.tasks.Keys - start.tasks.Keys, task)
  {
  }

  lemma CallKeepsPlan(base: JobState, job: JobState, call: Sessions.Call, worker: Id, task: Id)
    requires Sessions.PlanIsWhole(base, job, job.tasks.Keys - base.tasks.Keys, task)
    requires call.AddCall? ==> call.minted !in job.tasks && call.minted !in base.tasks
    requires Sessions.Perform(job, call, worker, task).Ok?
    ensures var after := Sessions.Perform(job, call, worker, task).value;
            Sessions.PlanIsWhole(base, after, after.tasks.Keys - base.tasks.Keys, task)
  {
    var s := Sessions.Session(job, true, job.tasks.Keys - base.tasks.Keys);
    Sessions.PerformKeepsPlan(base, s, call, worker, task);
    var after := Sessions.Handle(s, call, worker, task);
    PlanIsItsOwnRegister(base, after.job, after.registered, task);
  }

  lemma CallIsSound(world: World, worker: Id, job: JobState, task: Id, call: Sessions.Call)
    requires IsExecuting(world, worker, job, task) && JobOk(world.births, job) && PlanSound(world, job, task)
    requires Belongs(world.births, world.written[job.version.value])
    requires call.AddCall? ==> call.minted !in world.births
    requires Sessions.Perform(job, call, worker, task).Ok?
    ensures var after := Sessions.Perform(job, call, worker, task).value;
            && PhaseSound(Registered(world, call, after), Executing(after, task))
            && BirthsExtend(world.births, Registered(world, call, after).births)
  {
    var base, after := world.written[job.version.value], Sessions.Perform(job, call, worker, task).value;
    CallKeepsPlan(base, job, call, worker, task);
    if call.AddCall? {
      AddedGraph(world, job, call, worker, task);
    } else {
      CallNarrows(base, job, call, worker, task);
      NarrowedGraph(world.births, base, job, after, task);
    }
  }

  lemma FinishIsSound(world: World, worker: Id, job: JobState, task: Id, outcome: Sessions.ExecutorOutcome,
                      now: Moment, later: Moment, settleAt: Moment, closedAt: Moment)
    requires IsExecuting(world, worker, job, task) && JobOk(world.births, job) && PlanSound(world, job, task)
    requires settleAt <= closedAt && Sessions.ApplyOutcome(job, task, worker, outcome, now, later).Ok?
    ensures var settled := TrySettle(Sessions.ApplyOutcome(job, task, worker, outcome, now, later).value, worker, settleAt, closedAt);
            JobOk(world.births, settled.job) && settled.result != Err(IterationDeadlock)
  {
    var base := world.written[job.version.value];
    var applied := Sessions.ApplyOutcome(job, task, worker, outcome, now, later).value;
    Sessions.OutcomeKeepsPlan(base, job, job.tasks.Keys - base.tasks.Keys, task, worker, outcome, now, later);
    OutcomeNarrows(base, job, task, worker, outcome, now, later);
    NarrowedGraph(world.births, base, job, applied, task);
    SettlingIsHonest(world.births, applied, worker, settleAt, closedAt);
  }

  // ----- Every step -----

  ghost predicate IsSound(after: (World, Phase)) {
    WorldSound(after.0) && PhaseSound(after.0, after.1)
  }

  lemma CreateIsSound(def: JobDefinition, world: World, worker: Id, phase: Phase, jobId: Id, ids: seq<Id>, now: Moment)
    requires IsLegal(def) && WorldSound(world) && PhaseSound(world, phase)
    ensures IsSound(ActCreate(def, world, worker, phase, jobId, ids, now))
  {
    if |ids| == |def.initialTasks| && AreFresh(world, ids) {
      PlanningIsSound(def, world, jobId, ids, worker, now, 1);
    }
  }

  lemma NextIterationIsSound(def: JobDefinition, world: World, worker: Id, job: JobState, ids: seq<Id>, now: Moment)
    requires IsLegal(def) && WorldSound(world) && |ids| == |def.initialTasks| && AreFresh(world, ids)
    requires NextIterationOf(job, def, ids, worker, now).Ok?
    ensures var next := NextIterationOf(job, def, ids, worker, now).value;
            && next.iterNum == job.iterNum + 1
            && IsSound((world.(births := world.births + BirthsOf(def, ids, next.iterNum)), SavingIteration(next)))
  {
    NextIterationIsPlanned(def, worker, job, ids, now);
    PlanningIsSound(def, world, job.id, ids, worker, now, job.iterNum + 1);
  }

  lemma AdvanceIsSound(def: JobDefinition, world: World, worker: Id, phase: Phase, ids: seq<Id>, now: Moment)
    requires IsLegal(def) && WorldSound(world) && PhaseSound(world, phase)
    ensures IsSound(ActAdvance(def, world, worker, phase, ids, now))
  {
    var after := ActAdvance(def, world, worker, phase, ids, now);
    if after.1.SavingIteration? && phase.Advancing? {
      NextIterationIsSound(def, world, worker, phase.job, ids, now);
    } else {
      assert after.0 == world && (after.1 == phase || after.1.Idle? || after.1.job == phase.job);
    }
  }

  lemma ReadAndPickAreSound(world: World, n: nat, worker: Id, phase: Phase, r: PickReadings, choice: Id, startAt: Moment)
    requires WorldOk(world, n) && WorldSound(world) && PhaseSound(world, phase)
    ensures IsSound(ActRead(world, phase))
    ensures IsSound(ActPick(world, worker, phase, r, choice, startAt))
  {
    LastIsNewest(world.store, n);
    if n > 0 {
      NewestIsSound(world, n);
    }
    if phase.Open? && r.settleAt <= r.closedAt {
      PickIsSound(world.births, phase.job, worker, r, choice, startAt);
    }
  }

  lemma WritingIsSound(world: World, worker: Id, phase: Phase, isAcknowledged: bool)
    requires PhaseOk(world, worker, phase) && WorldSound(world) && PhaseSound(world, phase)
    ensures IsSound(ActWrite(world, phase, isAcknowledged))
  {
    if IsSaving(phase) && IsWriteAllowed(world, phase.job) {
      WriteIsSound(world, phase);
    }
  }

  lemma NewestIsSound(world: World, n: nat)
    requires WorldOk(world, n) && WorldSound(world) && n > 0
    ensures n in world.store && JobOk(world.births, world.store[n].job)
  {
    NewestIsLoaded(world, n);
    assert SoundAt(world, world.store[n].job.version.value);
  }

  lemma BaseBelongs(world: World, n: nat, job: JobState)
    requires WorldOk(world, n) && job.version.Some? && job.version.value in world.written
    ensures Belongs(world.births, world.written[job.version.value])
  {
    assert WrittenOk(world, job.version.value);
  }

  lemma MergeIsSound(world: World, n: nat, worker: Id, phase: Phase, now: Moment, later: Moment)
    requires WorldOk(world, n) && PhaseOk(world, worker, phase) && WorldSound(world) && PhaseSound(world, phase)
    ensures IsSound(ActMerge(world, worker, phase, now, later))
  {
    LastIsNewest(world.store, n);
    if IsSaving(phase) && n > 0 && now <= later {
      NewestIsSound(world, n);
      ConflictIsSound(world, n, worker, phase, now, later);
    }
  }

  lemma ExecutingIsSound(world: World, n: nat, worker: Id, phase: Phase, call: Sessions.Call)
    requires WorldOk(world, n) && PhaseOk(world, worker, phase) && WorldSound(world) && PhaseSound(world, phase)
    ensures IsSound(ActCall(world, worker, phase, call))
  {
    if phase.Executing? && (call.AddCall? ==> call.minted !in world.births) {
      var performed := Sessions.Perform(phase.job, call, worker, phase.task);
      if performed.Ok? {
        BaseBelongs(world, n, phase.job);
        CallIsSound(world, worker, phase.job, phase.task, call);
        MintingKeepsSound(world, Registered(world, call, performed.value).births);
      }
    }
  }

  lemma FinishingIsSound(world: World, worker: Id, phase: Phase, outcome: Sessions.ExecutorOutcome,
                         now: Moment, later: Moment, settleAt: Moment, closedAt: Moment)
    requires PhaseOk(world, worker, phase) && WorldSound(world) && PhaseSound(world, phase)
    ensures IsSound(ActFinish(world, worker, phase, outcome, now, later, settleAt, closedAt))
  {
    if phase.Executing? && settleAt <= closedAt
       && Sessions.ApplyOutcome(phase.job, phase.task, worker, outcome, now, later).Ok? {
      FinishIsSound(world, worker, phase.job, phase.task, outcome, now, later, settleAt, closedAt);
    }
  }

  lemma ActIsSound(def: JobDefinition, world: World, n: nat, worker: Id, phase: Phase, move: Move)
    requires IsLegal(def) && WorldOk(world, n) && PhaseOk(world, worker, phase)
    requires WorldSound(world) && PhaseSound(world, phase)
    ensures IsSound(Act(def, world, worker, phase, move))
  {
    match move
    case Create(jobId, ids, now) => CreateIsSound(def, world, worker, phase, jobId, ids, now);
    case Read => ReadAndPickAreSound(world, n, worker, phase, PickReadings(0, 0, 0, 0, 0, 0, 0), 0, 0);
    case Advance(ids, now) => AdvanceIsSound(def, world, worker, phase, ids, now);
    case Pick(r, choice, startAt) => ReadAndPickAreSound(world, n, worker, phase, r, choice, startAt);
    case Write(isAcknowledged) => WritingIsSound(world, worker, phase, isAcknowledged);
    case Merge(now, later) => MergeIsSound(world, n, worker, phase, now, later);
    case Call(call) => ExecutingIsSound(world, n, worker, phase, call);
    case Finish(outcome, now, later, settleAt, closedAt) =>
      FinishingIsSound(world, worker, phase, outcome, now, later, settleAt, closedAt);
    case Stop =>
  }
}
