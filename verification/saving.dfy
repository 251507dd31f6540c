/**
 * The retry loop behind every write of a worker: write if the version still matches, otherwise
 * re-read, let the caller's handler merge, and try again. A write is itself repeated while its answer
 * is lost, so a conflict may be with the worker's own write. Each attempt is a stretch of protocol
 * moves, and each one after the first is refused only for a write that landed meanwhile: another
 * worker's, or the worker's own whose answer was lost.
 */
module Saving {
  import opened Base
  import opened Settling
  import opened Jobs
  import opened Protocol

  /** How a save ended: written, given up for what is stored, failed, or out of attempts. */
  datatype SaveOutcome = Saved | Dropped | SaveFailed | AttemptsSpent

  /**
   * What storage answers to one conditional put. Behind a lost answer, which is worth repeating, and
   * behind an error, which is not, the put may have landed.
   */
  datatype PutAnswer = PutAs(version: nat) | PutRefused | AnswerLost | PutError

  /** What becomes of a put: answered, or not, and then it may be worth repeating and may still land. */
  datatype Delivery = Answered | Unanswered(isRepeatable: bool, doesLand: bool)

  /** What the worker learns once the put has been repeated as often as its answer was lost. */
  datatype WriteAnswer = WrittenAs(version: nat) | VersionConflict | WriteError

  /** A caller's answer to a conflict, given the stored state and two readings of the clock; it may be an error. */
  type Handler = (Phase, JobState, Moment, Moment) -> Result<Phase>

  /**
   * One attempt: the store as it was begun, what was to be written, the store its own put landed on if
   * the answer to that was lost, the store as its last put or its re-read met it, and two readings.
   */
  datatype Attempt = Attempt(
    found: World,
    phase: Phase,
    landed: Option<World>,
    met: World,
    now: Moment,
    later: Moment)

  /** Every stored state carries the number and the version it is stored under. */
  ghost predicate IsConsistent(store: map<nat, Stored>) {
    forall k :: k in store ==> store[k].job.iterNum == k && store[k].job.version == Some(store[k].version)
  }

  /** What the handler leaves to write is a successor of the state it was given. */
  ghost predicate KeepsVersion(handler: Handler) {
    forall phase, saved, now, later ::
      var next := handler(phase, saved, now, later);
      IsSaving(phase) && next.Ok? && IsSaving(next.value) ==>
        next.value.job.iterNum == saved.iterNum && next.value.job.version == saved.version
  }

  ghost predicate IsRefused(a: Attempt) {
    IsSaving(a.phase) && !IsWriteAllowed(a.met, a.phase.job)
  }

  /** What the handler made of the newest stored state, after the attempt was refused. */
  ghost predicate Resolves(handler: Handler, a: Attempt, end: Result<Phase>) {
    && IsRefused(a) && a.now <= a.later
    && Newest(a.met.store) in a.met.store
    && end == handler(a.phase, a.met.store[Newest(a.met.store)].job, a.now, a.later)
  }

  ghost predicate Continues(handler: Handler, trace: seq<Attempt>, i: nat) {
    0 < i < |trace| ==> Resolves(handler, trace[i - 1], Ok(trace[i].phase)) && trace[i].found == trace[i - 1].met
  }

  /** Each attempt begins where the one before it was merged, with what that left to write. */
  ghost predicate IsRetrying(handler: Handler, trace: seq<Attempt>, phase: Phase) {
    && trace != [] && trace[0].phase == phase
    && (forall i {:trigger Continues(handler, trace, i)} :: Continues(handler, trace, i))
  }

  /** Another worker's write: it moves the version on, and what was refused before it is refused after. */
  ghost predicate MovesOn(before: World, after: World) {
    after == before || before.nextVersion < after.nextVersion
  }

  /** The writes that landed in the course of the attempt. */
  function Landings(a: Attempt): int {
    a.met.nextVersion - a.found.nextVersion
  }

  /** The worker's own among them: the protocol's write move, unacknowledged. */
  ghost predicate OwnLandingIsMove(a: Attempt) {
    a.landed.Some? ==>
      && IsSaving(a.phase) && IsWriteAllowed(a.landed.value, a.phase.job)
      && ActWrite(a.landed.value, a.phase, false) == (Written(a.landed.value, a.phase.job), a.phase)
      && a.found.nextVersion <= a.landed.value.nextVersion < a.met.nextVersion
  }

  /** The attempt lost to a write that landed since the merge before it. */
  ghost predicate IsOutrun(trace: seq<Attempt>, i: nat) {
    0 < i < |trace| ==> 0 < Landings(trace[i])
  }

  ghost predicate AllOutrun(trace: seq<Attempt>) {
    forall i {:trigger IsOutrun(trace, i)} :: IsOutrun(trace, i)
  }

  /** The attempts whose own put landed without the worker learning of it. */
  function LostAnswers(trace: seq<Attempt>): nat {
    if trace == [] then 0
    else LostAnswers(trace[..|trace| - 1]) + if trace[|trace| - 1].landed.Some? then 1 else 0
  }

  /** What is to be written next may be written as the store stands. */
  ghost predicate IsMerged(handler: Handler, last: Attempt, world: World, next: Phase) {
    last.met == world && Resolves(handler, last, Ok(next)) && IsSaving(next) && IsWriteAllowed(world, next.job)
  }

  lemma MergedMayBeWritten(handler: Handler, a: Attempt, next: Phase)
    requires KeepsVersion(handler) && IsConsistent(a.met.store)
    requires Resolves(handler, a, Ok(next)) && IsSaving(next)
    ensures IsMerged(handler, a, a.met, next)
  {
  }

  /** What holds of every attempt, however it ended. */
  ghost predicate IsMade(a: Attempt) {
    IsSaving(a.phase) && OwnLandingIsMove(a) && MovesOn(a.found, a.met)
  }

  /**
   * What an attempt leads to: a write of the protocol, the copy given up for what is stored, an error
   * behind which the last put may have landed, or a copy to be written next. A copy is given up, or
   * merged, over the worker's own write as well if that landed with its answer lost.
   */
  ghost predicate LeadsTo(handler: Handler, made: Attempt, after: World, end: Phase, outcome: Option<SaveOutcome>) {
    && IsMade(made)
    && match outcome
       case Some(Saved) =>
         made.landed.None? && !IsRefused(made) && ActWrite(made.met, made.phase, true) == (after, end)
       case Some(Dropped) => after == made.met && !IsSaving(end) && Resolves(handler, made, Ok(end))
       case Some(SaveFailed) => end == Idle && (after == made.met || after == ActWrite(made.met, made.phase, false).0)
       case Some(AttemptsSpent) => false
       case None => after == made.met && IsMerged(handler, made, after, end)
  }

  lemma WriteLeadsTo(handler: Handler, made: Attempt, after: World, end: Phase)
    requires IsMade(made) && made.landed.None? && !IsRefused(made)
    requires after == Written(made.met, made.phase.job) && end == AfterWrite(made.phase, made.met.nextVersion)
    ensures LeadsTo(handler, made, after, end, Some(Saved))
  {
  }

  lemma ErrorLeadsTo(handler: Handler, made: Attempt, after: World)
    requires IsMade(made)
    requires after == made.met || (!IsRefused(made) && after == Written(made.met, made.phase.job))
    ensures LeadsTo(handler, made, after, Idle, Some(SaveFailed))
  {
  }

  /** What the handler's answer leads to. */
  function AnswerPhase(answer: Result<Phase>): Phase {
    if answer.Ok? then answer.value else Idle
  }

  function AnswerOutcome(answer: Result<Phase>): Option<SaveOutcome> {
    if answer.Err? then Some(SaveFailed) else if IsSaving(answer.value) then None else Some(Dropped)
  }

  lemma AnswerLeadsTo(handler: Handler, made: Attempt, answer: Result<Phase>)
    requires KeepsVersion(handler) && IsConsistent(made.met.store) && IsMade(made) && Resolves(handler, made, answer)
    ensures LeadsTo(handler, made, made.met, AnswerPhase(answer), AnswerOutcome(answer))
  {
    if answer.Err? {
      ErrorLeadsTo(handler, made, made.met);
    } else {
      assert answer == Ok(answer.value);
      if IsSaving(answer.value) {
        MergedMayBeWritten(handler, made, answer.value);
      }
    }
  }

  lemma ConflictLeadsTo(handler: Handler, made: Attempt, saved: JobState)
    requires KeepsVersion(handler) && IsConsistent(made.met.store)
    requires IsMade(made) && IsRefused(made) && made.now <= made.later
    requires Newest(made.met.store) in made.met.store && saved == made.met.store[Newest(made.met.store)].job
    ensures var answer := handler(made.phase, saved, made.now, made.later);
            LeadsTo(handler, made, made.met, AnswerPhase(answer), AnswerOutcome(answer))
  {
    AnswerLeadsTo(handler, made, handler(made.phase, saved, made.now, made.later));
  }

  /** A save under way: refused so far, each time but the first for a write that landed meanwhile. */
  ghost predicate IsUnderway(handler: Handler, trace: seq<Attempt>, phase: Phase, world: World, current: Phase) {
    && IsSaving(current) && AllOutrun(trace)
    && if trace == [] then current == phase
       else IsRetrying(handler, trace, phase) && IsMerged(handler, trace[|trace| - 1], world, current)
  }

  /** The last attempt led to the outcome, unless there was none left to make. */
  ghost predicate EndsAs(handler: Handler, trace: seq<Attempt>, world: World, end: Phase, outcome: SaveOutcome) {
    outcome == AttemptsSpent || (trace != [] && LeadsTo(handler, trace[|trace| - 1], world, end, Some(outcome)))
  }

  lemma {:induction false} OneMoreAttempt(handler: Handler, trace: seq<Attempt>, phase: Phase, made: Attempt,
                       after: World, end: Phase, outcome: Option<SaveOutcome>)
    requires IsUnderway(handler, trace, phase, made.found, made.phase)
    requires LeadsTo(handler, made, after, end, outcome)
    ensures IsRetrying(handler, trace + [made], phase)
    ensures outcome.Some? ==> EndsAs(handler, trace + [made], after, end, outcome.value)
    ensures outcome == None ==> IsUnderway(handler, trace + [made], phase, after, end)
    ensures outcome == None && trace != [] ==> 0 < Landings(made)
    ensures LostAnswers(trace + [made]) == LostAnswers(trace) + if made.landed.Some? then 1 else 0
  {
    var longer := trace + [made];
    assert longer[..|longer| - 1] == trace;
    forall i: nat ensures Continues(handler, longer, i) {
      assert Continues(handler, trace, i);
    }
    if outcome == None {
      forall i: nat ensures IsOutrun(longer, i) {
        assert IsOutrun(trace, i);
      }
    }
  }

  lemma {:induction false} NewestExists(ids: set<nat>) returns (newest: nat)
    requires ids != {}
    ensures newest in ids && forall k :: k in ids ==> k <= newest
    decreases |ids|
  {
    newest :| newest in ids;
    var rest := ids - {newest};
    if rest != {} {
      var other := NewestExists(rest);
      assert forall k :: k in ids ==> k == newest || k in rest;
      if other > newest {
        newest := other;
      }
    }
  }

  /** The condition of a write can never hold again: its version is gone. */
  ghost predicate IsSpent(world: World, job: JobState) {
    !IsWriteAllowed(world, job) && (job.version.Some? ==> job.version.value < world.nextVersion)
  }

  /** The puts went on as long as their answers were lost and the budget lasted; the last one decided. */
  predicate IsAnswerOf(answer: WriteAnswer, answers: seq<PutAnswer>, maxPuts: nat)
    requires answers != []
  {
    && (forall i :: 0 <= i < |answers| - 1 ==> answers[i] == AnswerLost)
    && match answers[|answers| - 1]
       case PutAs(version) => answer == WrittenAs(version)
       case PutRefused => answer == VersionConflict
       case PutError => answer == WriteError
       case AnswerLost => answer == WriteError && maxPuts <= |answers|
  }

  class JobStore {
    var iterations: map<nat, Stored>
    var nextVersion: nat
    /** What other workers are about to write, in this order; how much of it has landed. */
    var rivals: seq<JobState>
    ghost var rivalsLanded: nat
    ghost var world: World

    ghost predicate Valid()
      reads this
    {
      && world.store == iterations && world.nextVersion == nextVersion && IsConsistent(world.store)
      && (forall k :: k in iterations ==> iterations[k].version < nextVersion)
    }

    /** One conditional put. It lands where its condition holds, unless it is lost on the way. */
    method PutObject(job: JobState, delivery: Delivery) returns (answer: PutAnswer)
      requires Valid()
      modifies this`iterations, this`nextVersion, this`world
      ensures Valid()
      ensures var lands := IsWriteAllowed(old(world), job) && (delivery.Answered? || delivery.doesLand);
              world == if lands then Written(old(world), job) else old(world)
      ensures answer == match delivery
                        case Answered => if IsWriteAllowed(old(world), job) then PutAs(old(nextVersion)) else PutRefused
                        case Unanswered(isRepeatable, _) => if isRepeatable then AnswerLost else PutError
    {
      answer := if delivery.Unanswered? && delivery.isRepeatable then AnswerLost else PutError;
      if delivery.Unanswered? && !delivery.doesLand {
        return;
      }
      var isAllowed := if job.version.None? then job.iterNum !in iterations
                       else job.iterNum in iterations && iterations[job.iterNum].version == job.version.value;
      if !isAllowed {
        return if delivery.Answered? then PutRefused else answer;
      }
      if delivery.Answered? {
        answer := PutAs(nextVersion);
      }
      world := Written(world, job);
      iterations := iterations[job.iterNum := Stored(nextVersion, Persisted(job.(version := Some(nextVersion))))];
      nextVersion := nextVersion + 1;
    }

    /** Other workers get to make some of their writes. */
    method LetRivalsWrite(ghost spent: JobState)
      requires Valid()
      modifies this
      ensures Valid() && |rivals| <= |old(rivals)| && MovesOn(old(world), world)
      ensures nextVersion - old(nextVersion) == rivalsLanded - old(rivalsLanded) <= |old(rivals)| - |rivals|
      ensures old(rivalsLanded) <= rivalsLanded
      ensures IsSpent(old(world), spent) ==> IsSpent(world, spent)
      ensures spent.version.Some? && spent.version.value < old(nextVersion) ==> spent.version.value < nextVersion
    {
      var n: nat := *;
      while 0 < n && rivals != []
        invariant Valid() && |rivals| <= |old(rivals)| && MovesOn(old(world), world)
        invariant nextVersion - old(nextVersion) == rivalsLanded - old(rivalsLanded) <= |old(rivals)| - |rivals|
        invariant old(rivalsLanded) <= rivalsLanded
        invariant IsSpent(old(world), spent) ==> IsSpent(world, spent)
        decreases n
      {
        ghost var before := nextVersion;
        var delivery: Delivery := *;
        var _ := PutObject(rivals[0], delivery);
        rivalsLanded := rivalsLanded + nextVersion - before;
        rivals, n := rivals[1..], n - 1;
      }
    }

    /**
     * Puts the state, once more whenever the answer is lost, up to `maxPuts` times. The first put that
     * lands is the only one: a repeated one is then refused like any other.
     */
    method SaveJob(job: JobState, maxPuts: nat)
      returns (answer: WriteAnswer, ghost landed: Option<World>, ghost met: World, ghost answers: seq<PutAnswer>)
      requires Valid() && (job.version.Some? ==> job.version.value < nextVersion)
      modifies this
      ensures Valid() && MovesOn(old(world), met) && |rivals| <= |old(rivals)|
      ensures 1 <= |answers| <= (if maxPuts == 0 then 1 else maxPuts) && IsAnswerOf(answer, answers, maxPuts)
      ensures landed.Some? ==>
                && IsWriteAllowed(landed.value, job) && IsSpent(met, job)
                && old(nextVersion) <= landed.value.nextVersion < met.nextVersion
      ensures answer.WrittenAs? ==>
                && landed.None? && IsWriteAllowed(met, job)
                && world == Written(met, job) && answer.version == met.nextVersion
      ensures answer.VersionConflict? ==> world == met && IsSpent(met, job)
      ensures answer.WriteError? ==> world == met || (IsWriteAllowed(met, job) && world == Written(met, job))
      ensures met.nextVersion - old(nextVersion)
           == rivalsLanded - old(rivalsLanded) + if landed.Some? then 1 else 0
      ensures old(rivalsLanded) <= rivalsLanded <= old(rivalsLanded) + |old(rivals)| - |rivals|
    {
      landed, answers := None, [];
      var puts := 0;
      while true
        invariant |answers| == puts && forall i :: 0 <= i < |answers| ==> answers[i] == AnswerLost
        invariant Valid() && MovesOn(old(world), world) && |rivals| <= |old(rivals)|
        invariant job.version.Some? ==> job.version.value < nextVersion
        invariant landed.Some? ==>
                    && IsWriteAllowed(landed.value, job) && IsSpent(world, job)
                    && old(nextVersion) <= landed.value.nextVersion < nextVersion
        invariant nextVersion - old(nextVersion)
               == rivalsLanded - old(rivalsLanded) + if landed.Some? then 1 else 0
        invariant old(rivalsLanded) <= rivalsLanded <= old(rivalsLanded) + |old(rivals)| - |rivals|
        invariant puts == 0 || puts < maxPuts
        decreases maxPuts - puts
      {
        LetRivalsWrite(job);
        met := world;
        var delivery: Delivery := *;
        var put := PutObject(job, delivery);
        puts, answers := puts + 1, answers + [put];
        match put {
          case PutAs(version) => return WrittenAs(version), landed, met, answers;
          case PutRefused => return VersionConflict, landed, met, answers;
          case PutError => return WriteError, landed, met, answers;
          case AnswerLost =>
            if puts >= maxPuts {
              return WriteError, landed, met, answers;
            }
            if world != met {
              landed := Some(met);
            }
        }
      }
    }

    /** The stored state of the highest iteration, unless nothing is stored or storage fails. */
    method GetJob(isDown: bool) returns (job: Result<JobState>)
      requires Valid()
      ensures job.Err? <==> isDown || iterations == map[]
      ensures job.Ok? ==> Newest(world.store) in world.store && job.value == world.store[Newest(world.store)].job
    {
      if isDown || iterations == map[] {
        return Err(Other);
      }
      ghost var last := NewestExists(iterations.Keys);
      var newest :| newest in iterations && forall k :: k in iterations ==> k <= newest;
      return Ok(iterations[newest].job);
    }
  }

  /** Asks the handler: it answers with something to write next, or ends the save. */
  method HandleConflict(handler: Handler, ghost made: Attempt, current: Phase, saved: JobState, now: Moment, later: Moment)
    returns (end: Phase, outcome: Option<SaveOutcome>)
    requires KeepsVersion(handler) && IsConsistent(made.met.store) && IsMade(made) && IsRefused(made)
    requires made.phase == current && made.now == now <= later == made.later
    requires Newest(made.met.store) in made.met.store && saved == made.met.store[Newest(made.met.store)].job
    ensures LeadsTo(handler, made, made.met, end, outcome)
  {
    ConflictLeadsTo(handler, made, saved);
    var answer := handler(current, saved, now, later);
    end, outcome := AnswerPhase(answer), AnswerOutcome(answer);
  }

  /** After a conflict: other workers may still write before the newest state is read and merged with. */
  method ReadAndMerge(store: JobStore, handler: Handler, current: Phase, ghost refused: Attempt, now: Moment, later: Moment)
    returns (end: Phase, outcome: Option<SaveOutcome>, ghost made: Attempt)
    requires store.Valid() && KeepsVersion(handler) && IsMade(refused) && IsSpent(store.world, refused.phase.job)
    requires refused.met == store.world && refused.phase == current && refused.now == now <= later == refused.later
    modifies store
    ensures store.Valid() && made == refused.(met := store.world)
    ensures LeadsTo(handler, made, store.world, end, outcome)
    ensures store.nextVersion - old(store.nextVersion) == store.rivalsLanded - old(store.rivalsLanded)
    ensures |store.rivals| <= |old(store.rivals)|
    ensures old(store.rivalsLanded) <= store.rivalsLanded <= old(store.rivalsLanded) + |old(store.rivals)| - |store.rivals|
  {
    store.LetRivalsWrite(current.job);
    made := refused.(met := store.world);
    var isDown: bool := *;
    var saved := store.GetJob(isDown);
    if saved.Err? {
      end, outcome := Idle, Some(SaveFailed);
      ErrorLeadsTo(handler, made, made.met);
      return;
    }
    end, outcome := HandleConflict(handler, made, current, saved.value, now, later);
  }

  /** One attempt. It ends the save unless it returns what to write next. */
  method TrySave(store: JobStore, handler: Handler, current: Phase, maxPuts: nat)
    returns (end: Phase, outcome: Option<SaveOutcome>, ghost made: Attempt)
    requires store.Valid() && IsSaving(current) && KeepsVersion(handler)
    requires current.job.version.Some? ==> current.job.version.value < store.nextVersion
    modifies store
    ensures store.Valid() && made.found == old(store.world) && made.phase == current
    ensures LeadsTo(handler, made, store.world, end, outcome)
    ensures outcome == None ==>
              Landings(made) == store.rivalsLanded - old(store.rivalsLanded) + if made.landed.Some? then 1 else 0
    ensures |store.rivals| <= |old(store.rivals)|
    ensures old(store.rivalsLanded) <= store.rivalsLanded <= old(store.rivalsLanded) + |old(store.rivals)| - |store.rivals|
  {
    var now: Moment, pause: nat := *, *;
    ghost var found := store.world;
    var answer: WriteAnswer;
    ghost var landed: Option<World>, met: World, answers: seq<PutAnswer>;
    answer, landed, met, answers := store.SaveJob(current.job, maxPuts);
    made := Attempt(found, current, landed, met, now, now + pause);
    match answer {
      case WriteError =>
        end, outcome := Idle, Some(SaveFailed);
        ErrorLeadsTo(handler, made, store.world);
      case WrittenAs(version) =>
        end, outcome := AfterWrite(current, version), Some(Saved);
        WriteLeadsTo(handler, made, store.world, end);
      case VersionConflict =>
        end, outcome, made := ReadAndMerge(store, handler, current, made, now, now + pause);
    }
  }

  /**
   * Keeps writing what `phase` is saving, merged with whatever was stored first, while other workers
   * write. The budget is spent only if a write landed in the course of every attempt after the first:
   * another worker's, or this one's own whose answer was lost. So two attempts are enough but for one
   * more for each of those.
   */
  method SaveJobState(store: JobStore, handler: Handler, phase: Phase, maxAttempts: nat, maxPuts: nat)
    returns (end: Phase, outcome: SaveOutcome, ghost trace: seq<Attempt>)
    requires store.Valid() && IsSaving(phase) && KeepsVersion(handler)
    requires phase.job.version.Some? ==> phase.job.version.value < store.nextVersion
    modifies store
    ensures store.Valid()
    ensures IsRetrying(handler, trace, phase) && |trace| <= (if maxAttempts == 0 then 1 else maxAttempts)
    ensures EndsAs(handler, trace, store.world, end, outcome)
    ensures outcome == AttemptsSpent ==> end == Idle && maxAttempts <= |trace| && AllOutrun(trace)
    ensures |trace| <= 2 + LostAnswers(trace) + store.rivalsLanded - old(store.rivalsLanded)
    ensures store.rivalsLanded - old(store.rivalsLanded) <= |old(store.rivals)|
  {
    var current, attempt := phase, 0;
    trace := [];
    while true
      invariant store.Valid() && IsUnderway(handler, trace, phase, store.world, current)
      invariant attempt == |trace| && (attempt == 0 || attempt < maxAttempts)
      invariant current.job.version.Some? ==> current.job.version.value < store.nextVersion
      invariant |trace| <= 1 + LostAnswers(trace) + store.rivalsLanded - old(store.rivalsLanded)
      invariant old(store.rivalsLanded) <= store.rivalsLanded <= old(store.rivalsLanded) + |old(store.rivals)| - |store.rivals|
      decreases maxAttempts - attempt
    {
      var next, ended, made := TrySave(store, handler, current, maxPuts);
      OneMoreAttempt(handler, trace, phase, made, store.world, next, ended);
      trace, attempt := trace + [made], attempt + 1;
      if ended.Some? {
        return next, ended.value, trace;
      }
      if attempt >= maxAttempts {
        return Idle, AttemptsSpent, trace;
      }
      current := next;
    }
  }

  // ----- The handlers of the protocol -----

  /**
   * The error a caller of the loop ends it with, instead of giving the copy up: whatever its merge
   * refuses for a reason other than the task or the iteration being lost to another worker.
   */
  function ConflictError(phase: Phase, worker: Id, saved: JobState, now: Moment, later: Moment): Option<Error> {
    match phase
    case SavingStart(job, task) =>
      var merged := MergePicked(saved, job, worker, task, now, later);
      if merged.Ok? || merged.error == TaskWorkerMismatch then None else Some(merged.error)
    case SavingResult(job, task) =>
      var merged := MergeProcessed(saved, job, worker, task, now, later).result;
      if merged.Ok? || merged.error.IterationDeadlock? || merged.error.IterationAlreadySettled? || merged.error.TaskWorkerMismatch?
      then None else Some(merged.error)
    case _ => None
  }

  /** What the five callers of the loop hand it. */
  function HandlerOf(worker: Id): Handler {
    (phase: Phase, saved: JobState, now: Moment, later: Moment) =>
      var error := ConflictError(phase, worker, saved, now, later);
      if error.Some? then Err(error.value)
      else if IsSaving(phase) then Ok(AfterConflict(phase, worker, saved, now, later))
      else Ok(Idle)
  }

  /** A merge keeps the number and the version of the state it merges into. */
  lemma MergeKeepsVersion(saved: JobState, ours: JobState, worker: Id, task: Id, now: Moment, later: Moment)
    ensures var picked := MergePicked(saved, ours, worker, task, now, later);
            picked.Ok? ==> picked.value.iterNum == saved.iterNum && picked.value.version == saved.version
    ensures var processed := MergeProcessed(saved, ours, worker, task, now, later).job;
            processed.iterNum == saved.iterNum && processed.version == saved.version
  {
    var carried := CarriedOver(saved, ours, worker, now);
    var derived := carried.(tasks := Derived(carried.tasks, now));
    assert CloseIfSettled(derived, worker, now, later).job.version == saved.version;
  }

  lemma ConflictKeepsVersion(phase: Phase, worker: Id, saved: JobState, now: Moment, later: Moment)
    requires IsSaving(phase) && IsSaving(AfterConflict(phase, worker, saved, now, later))
    ensures var job := AfterConflict(phase, worker, saved, now, later).job;
            job.iterNum == saved.iterNum && job.version == saved.version
  {
    if phase.SavingStart? {
      MergeKeepsVersion(saved, phase.job, worker, phase.task, now, later);
    } else if phase.SavingResult? {
      MergeKeepsVersion(saved, phase.job, worker, phase.task, now, later);
    }
  }

  lemma ErrorsGiveUp(phase: Phase, worker: Id, saved: JobState, now: Moment, later: Moment)
    requires IsSaving(phase) && ConflictError(phase, worker, saved, now, later).Some?
    ensures AfterConflict(phase, worker, saved, now, later) == Idle
  {
  }

  /**
   * Every caller's handler may be handed to the loop, and each of its answers is a move of the
   * protocol, an error being one that leaves the worker idle.
   */
  lemma HandlersAreMoves(worker: Id)
    ensures KeepsVersion(HandlerOf(worker))
    ensures forall a: Attempt, answer :: Resolves(HandlerOf(worker), a, answer) ==>
              ActMerge(a.met, worker, a.phase, a.now, a.later) == (a.met, AnswerPhase(answer))
  {
    forall phase, saved: JobState, now: Moment, later: Moment
      ensures var next := HandlerOf(worker)(phase, saved, now, later);
              IsSaving(phase) && next.Ok? && IsSaving(next.value) ==>
                next.value.job.iterNum == saved.iterNum && next.value.job.version == saved.version
    {
      var next := HandlerOf(worker)(phase, saved, now, later);
      if IsSaving(phase) && next.Ok? && IsSaving(next.value) {
        ConflictKeepsVersion(phase, worker, saved, now, later);
      }
    }
    forall a: Attempt, answer | Resolves(HandlerOf(worker), a, answer)
      ensures ActMerge(a.met, worker, a.phase, a.now, a.later) == (a.met, AnswerPhase(answer))
    {
      HandlerAnswersAsMove(worker, a, answer);
    }
  }

  lemma HandlerAnswersAsMove(worker: Id, a: Attempt, answer: Result<Phase>)
    requires Resolves(HandlerOf(worker), a, answer)
    ensures ActMerge(a.met, worker, a.phase, a.now, a.later) == (a.met, AnswerPhase(answer))
  {
    var saved := a.met.store[Newest(a.met.store)].job;
    if ConflictError(a.phase, worker, saved, a.now, a.later).Some? {
      ErrorsGiveUp(a.phase, worker, saved, a.now, a.later);
    }
  }
}
