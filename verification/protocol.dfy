/**
 * The optimistic-concurrency protocol: any number of workers, each with its own copy of the job,
 * over one store of versioned iterations that only takes conditional writes.
 */
module Protocol {
  import opened Base
  import opened Tasks
  import opened Jobs
  import opened JobObject
  import opened Planning
  import Sessions

  /** One stored iteration. */
  datatype Stored = Stored(version: nat, job: JobState)

  /** Which iteration a task was created in, and its place in the dependency order. */
  datatype Birth = Birth(iterNum: nat, rank: nat)

  /**
   * What the workers share. `written` remembers every state ever stored under its version, and
   * `births` every identifier ever minted; neither is read by a worker.
   */
  datatype World = World(
    store: map<nat, Stored>,
    nextVersion: nat,
    written: map<nat, JobState>,
    births: map<Id, Birth>)

  /** What one worker is doing, with the copy of the job it holds. */
  datatype Phase =
    | Idle
    | Advancing(job: JobState)
    | Open(job: JobState)
    | SavingIteration(job: JobState)
    | SavingSettled(job: JobState)
    | SavingStart(job: JobState, task: Id)
    | Executing(job: JobState, task: Id)
    | SavingResult(job: JobState, task: Id)

  datatype System = System(world: World, workers: map<Id, Phase>)

  /**
   * One atomic step of a worker. What the code leaves to the clock, to chance or to the executor is
   * a parameter: readings, minted identifiers, the task picked, the calls made.
   */
  datatype Move =
    | Create(jobId: Id, ids: seq<Id>, now: Moment)
    | Read
    | Advance(ids: seq<Id>, now: Moment)
    | Pick(readings: PickReadings, choice: Id, startAt: Moment)
    | Write(isAcknowledged: bool)
    | Merge(now: Moment, later: Moment)
    | Call(call: Sessions.Call)
    | Finish(outcome: Sessions.ExecutorOutcome, now: Moment, later: Moment, settleAt: Moment, closedAt: Moment)
    | Stop

  /** What storing a job and loading it back keeps. */
  function Persisted(job: JobState): JobState {
    job.(tasks := map x | x in job.tasks :: Restored(job.tasks[x]))
  }

  /** The highest stored iteration, which is the one a read returns. */
  ghost function Newest(store: map<nat, Stored>): nat {
    if n :| n in store && forall k :: k in store ==> k <= n then n else 0
  }

  predicate IsSaving(phase: Phase) {
    phase.SavingIteration? || phase.SavingSettled? || phase.SavingStart? || phase.SavingResult?
  }

  /** Create-only without a version, and matched against the stored version otherwise. */
  predicate IsWriteAllowed(world: World, job: JobState) {
    if job.version.None? then job.iterNum !in world.store
    else job.iterNum in world.store && world.store[job.iterNum].version == job.version.value
  }

  function Written(world: World, job: JobState): World {
    var stored := Persisted(job.(version := Some(world.nextVersion)));
    world.(store := world.store[job.iterNum := Stored(world.nextVersion, stored)],
           written := world.written[world.nextVersion := stored],
           nextVersion := world.nextVersion + 1)
  }

  /** Where an acknowledged write leaves the worker. */
  function AfterWrite(phase: Phase, version: nat): Phase
    requires IsSaving(phase)
  {
    match phase
    case SavingIteration(job) => Open(job.(version := Some(version)))
    case SavingStart(job, task) => Executing(job.(version := Some(version)), task)
    case _ => Idle
  }

  /** Where a lost race leaves a worker, given the state it lost to. */
  function AfterConflict(phase: Phase, worker: Id, saved: JobState, now: Moment, later: Moment): Phase
    requires IsSaving(phase)
  {
    match phase
    case SavingIteration(job) =>
      if job.iterNum == 1 then Advancing(saved) else if IsProcessed(saved) then Idle else Open(saved)
    case SavingSettled(_) => Idle
    case SavingStart(job, task) =>
      var merged := MergePicked(saved, job, worker, task, now, later);
      if merged.Ok? then SavingStart(merged.value, task) else Idle
    case SavingResult(job, task) =>
      var merged := MergeProcessed(saved, job, worker, task, now, later);
      if merged.result.Ok? || merged.result.error.IterationDeadlock? then SavingResult(merged.job, task) else Idle
  }

  function AfterStart(job: JobState, worker: Id, choice: Id, startAt: Moment): Phase {
    match StartTask(job, choice, worker, startAt)
    case Err(_) => Idle
    case Ok(started) => SavingStart(started, choice)
  }

  /** A look for work and the start of what it found. */
  function AfterPick(job: JobState, worker: Id, r: PickReadings, choice: Id, startAt: Moment): Phase {
    match Prepared(job, worker, r)
    case Err(_) => Idle
    case Ok(prepared) =>
      if AnyPickable(prepared.tasks, r.findAt) then
        if choice in prepared.tasks && CheckAvailability(prepared.tasks[choice], r.findAt).Pickable?
        then AfterStart(prepared, worker, choice, startAt) else Idle
      else AfterSettling(prepared, worker, r, choice, startAt)
  }

  /** A look that found nothing settles the iteration, and looks again if it is still open. */
  function AfterSettling(prepared: JobState, worker: Id, r: PickReadings, choice: Id, startAt: Moment): Phase {
    var settled := TrySettle(prepared, worker, r.settleAt, r.closedAt);
    if settled.result.Err? then Idle
    else if settled.result.value then SavingSettled(settled.job)
    else if choice in settled.job.tasks && CheckAvailability(settled.job.tasks[choice], r.findAgainAt).Pickable?
    then AfterStart(settled.job, worker, choice, startAt) else Idle
  }

  /** The `Pick` move is the look of the job object, followed by the start of the task it named. */
  lemma PickMoveIsTheLook(job: JobState, worker: Id, r: PickReadings, after: JobState, pickup: Result<TaskPickup>,
                          choice: Id, startAt: Moment)
    requires LooksLike(job, worker, r, after, pickup)
    ensures AfterPick(job, worker, r, choice, startAt) ==
            match pickup
            case Err(_) => Idle
            case Ok(IterationSettled) => SavingSettled(after)
            case Ok(NothingToPick(_)) => Idle
            case Ok(PickedUp(x)) =>
              if x == choice then AfterStart(after, worker, x, startAt) else AfterPick(job, worker, r, choice, startAt)
  {
    if Prepared(job, worker, r).Ok? {
      var prepared := Prepared(job, worker, r).value;
      if !AnyPickable(prepared.tasks, r.findAt) {
        SettledMoveIsTheLook(prepared, worker, r, after, pickup, choice, startAt);
      }
    }
  }

  lemma SettledMoveIsTheLook(prepared: JobState, worker: Id, r: PickReadings, after: JobState, pickup: Result<TaskPickup>,
                             choice: Id, startAt: Moment)
    requires after == TrySettle(prepared, worker, r.settleAt, r.closedAt).job
    requires SettledLook(TrySettle(prepared, worker, r.settleAt, r.closedAt).result, after.tasks, r, pickup)
    ensures AfterSettling(prepared, worker, r, choice, startAt) ==
            match pickup
            case Err(_) => Idle
            case Ok(IterationSettled) => SavingSettled(after)
            case Ok(NothingToPick(_)) => Idle
            case Ok(PickedUp(x)) =>
              if x == choice then AfterStart(after, worker, x, startAt)
              else AfterSettling(prepared, worker, r, choice, startAt)
  {
  }

  /** Minted identifiers are new to the world. */
  predicate AreFresh(world: World, ids: seq<Id>) {
    Distinct(ids) && forall i :: 0 <= i < |ids| ==> ids[i] !in world.births
  }

  // ----- The steps. A step that does not apply changes nothing. -----

  /** No job is stored: the first iteration is planned. */
  ghost function ActCreate(def: JobDefinition, world: World, worker: Id, phase: Phase, jobId: Id, ids: seq<Id>, now: Moment)
    : (World, Phase)
    requires IsLegal(def)
  {
    if !phase.Idle? || world.store != map[] || |ids| != |def.initialTasks| || !AreFresh(world, ids) then (world, phase)
    else
      var job := NewJob(def, jobId, ids, worker, now);
      if job.Err? then (world, Idle)
      else (world.(births := world.births + BirthsOf(def, ids, job.value.iterNum)), SavingIteration(job.value))
  }

  ghost function ActRead(world: World, phase: Phase): (World, Phase) {
    if phase.Idle? && Newest(world.store) in world.store
    then (world, Advancing(world.store[Newest(world.store)].job)) else (world, phase)
  }

  /** An open iteration is worked on; a closed one is followed by the next as soon as that is due. */
  ghost function ActAdvance(def: JobDefinition, world: World, worker: Id, phase: Phase, ids: seq<Id>, now: Moment)
    : (World, Phase)
    requires IsLegal(def)
  {
    if !phase.Advancing? then (world, phase)
    else if !IsProcessed(phase.job) then (world, Open(phase.job))
    else if FindIterationStatus(phase.job, now) != Closed(Ready) then (world, Idle)
    else if |ids| != |def.initialTasks| || !AreFresh(world, ids) then (world, phase)
    else
      var job := NextIterationOf(phase.job, def, ids, worker, now);
      if job.Err? then (world, Idle)
      else (world.(births := world.births + BirthsOf(def, ids, job.value.iterNum)), SavingIteration(job.value))
  }

  function ActPick(world: World, worker: Id, phase: Phase, r: PickReadings, choice: Id, startAt: Moment): (World, Phase) {
    if phase.Open? && r.settleAt <= r.closedAt
    then (world, AfterPick(phase.job, worker, r, choice, startAt)) else (world, phase)
  }

  function ActWrite(world: World, phase: Phase, isAcknowledged: bool): (World, Phase) {
    if IsSaving(phase) && IsWriteAllowed(world, phase.job)
    then (Written(world, phase.job), if isAcknowledged then AfterWrite(phase, world.nextVersion) else phase)
    else (world, phase)
  }

  ghost function ActMerge(world: World, worker: Id, phase: Phase, now: Moment, later: Moment): (World, Phase) {
    if IsSaving(phase) && !IsWriteAllowed(world, phase.job) && Newest(world.store) in world.store && now <= later
    then (world, AfterConflict(phase, worker, world.store[Newest(world.store)].job, now, later)) else (world, phase)
  }

  ghost function ActCall(world: World, worker: Id, phase: Phase, call: Sessions.Call): (World, Phase) {
    if !phase.Executing? || (call.AddCall? && call.minted in world.births) then (world, phase)
    else
      var performed := Sessions.Perform(phase.job, call, worker, phase.task);
      if performed.Err? then (world, phase)
      else (Registered(world, call, performed.value), Executing(performed.value, phase.task))
  }

  /** The outcome is recorded and the iteration settled if it can be, ahead of the write that saves both. */
  function ActFinish(world: World, worker: Id, phase: Phase, outcome: Sessions.ExecutorOutcome,
                     now: Moment, later: Moment, settleAt: Moment, closedAt: Moment): (World, Phase) {
    if !phase.Executing? || settleAt > closedAt then (world, phase)
    else
      var applied := Sessions.ApplyOutcome(phase.job, phase.task, worker, outcome, now, later);
      if applied.Err? then (world, Idle)
      else (world, SavingResult(TrySettle(applied.value, worker, settleAt, closedAt).job, phase.task))
  }

  ghost function Act(def: JobDefinition, world: World, worker: Id, phase: Phase, move: Move): (World, Phase)
    requires IsLegal(def)
  {
    match move
    case Create(jobId, ids, now) => ActCreate(def, world, worker, phase, jobId, ids, now)
    case Read => ActRead(world, phase)
    case Advance(ids, now) => ActAdvance(def, world, worker, phase, ids, now)
    case Pick(r, choice, startAt) => ActPick(world, worker, phase, r, choice, startAt)
    case Write(isAcknowledged) => ActWrite(world, phase, isAcknowledged)
    case Merge(now, later) => ActMerge(world, worker, phase, now, later)
    case Call(call) => ActCall(world, worker, phase, call)
    case Finish(outcome, now, later, settleAt, closedAt) =>
      ActFinish(world, worker, phase, outcome, now, later, settleAt, closedAt)
    case Stop => (world, Idle)
  }

  /** The initial tasks of an iteration, ranked as the description orders them. */
  ghost function BirthsOf(def: JobDefinition, ids: seq<Id>, iterNum: nat): (born: map<Id, Birth>)
    requires IsLegal(def) && |ids| == |def.initialTasks| && Distinct(ids)
    ensures born.Keys == IdSet(ids)
    ensures forall x :: x in born ==> born[x] == Birth(iterNum, PlannedRank(def, ids)[x])
  {
    var rank := PlannedRank(def, ids);
    map x | x in rank :: Birth(iterNum, rank[x])
  }

  ghost function Registered(world: World, call: Sessions.Call, job: JobState): World {
    if call.AddCall? && call.minted in job.tasks
    then world.(births := world.births[call.minted := BirthOf(world, job, call.minted)]) else world
  }

  /** A task registered at runtime ranks above everything it depends on. */
  ghost function BirthOf(world: World, job: JobState, minted: Id): Birth
    requires minted in job.tasks
  {
    Birth(job.iterNum, RankAbove(Ranks(world.births), job.tasks[minted].dependsOn))
  }

  ghost function Ranks(births: map<Id, Birth>): map<Id, nat> {
    map x | x in births :: births[x].rank
  }

  const EMPTY_WORLD := World(map[], 0, map[], map[])

  function PhaseOf(s: System, worker: Id): Phase {
    if worker in s.workers then s.workers[worker] else Idle
  }

  ghost function Apply(def: JobDefinition, s: System, worker: Id, move: Move): System
    requires IsLegal(def)
  {
    var (world, phase) := Act(def, s.world, worker, PhaseOf(s, worker), move);
    System(world, s.workers[worker := phase])
  }

  /** The system after any moves of any workers, from an empty store. */
  ghost function Run(def: JobDefinition, moves: seq<(Id, Move)>): System
    requires IsLegal(def)
  {
    if moves == [] then System(EMPTY_WORLD, map[])
    else
      var (worker, move) := moves[|moves| - 1];
      Apply(def, Run(def, moves[..|moves| - 1]), worker, move)
  }
}
