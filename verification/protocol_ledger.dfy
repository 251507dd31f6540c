/**
 * The budgets of a stored task over every run: its attempts fall only where a worker it was taken over
 * from brings its own version back, its fresh starts are bounded by that, and its lifetime never moves.
 */
module ProtocolLedger {
  import opened Base
  import opened Tasks
  import opened Jobs
  import opened Planning
  import opened Ownership
  import opened Protocol
  import opened ProtocolInvariant
  import opened ProtocolOwnership
  import opened ProtocolOverrides
  import opened ProtocolRuns

  ghost predicate IsStored(world: World, k: nat, x: Id) {
    k in world.store && x in world.store[k].job.tasks
  }

  ghost function StoredTask(world: World, k: nat, x: Id): Task
    requires IsStored(world, k, x)
  {
    world.store[k].job.tasks[x]
  }

  /** The write lands, over iteration `k`. */
  ghost predicate Lands(world: World, phase: Phase, move: Move, k: nat) {
    move.Write? && IsSaving(phase) && IsWriteAllowed(world, phase.job) && phase.job.iterNum == k
  }

  /** The write is a start of `x` that spends an attempt. */
  ghost predicate IsFreshStart(world: World, phase: Phase, move: Move, k: nat, x: Id) {
    && Lands(world, phase, move, k) && IsStored(world, k, x)
    && phase.SavingStart? && phase.task == x && x in phase.job.tasks
    && StoredTask(world, k, x).attempt < phase.job.tasks[x].attempt
  }

  /** The write is a result that brings the writer's version of `x` back, though another worker owns it. */
  ghost predicate IsTakenBack(world: World, worker: Id, phase: Phase, move: Move, k: nat, x: Id) {
    && Lands(world, phase, move, k) && IsStored(world, k, x)
    && phase.SavingResult? && x in phase.job.tasks && phase.job.tasks[x].owner == Some(worker)
    && StoredTask(world, k, x).owner.Some? && StoredTask(world, k, x).owner != Some(worker)
  }

  /** A stored task and what a write puts in its place. */
  lemma WriteKeepsBudget(world: World, n: nat, worker: Id, phase: Phase, move: Move, x: Id)
    requires WorldOk(world, n) && PhaseOk(world, worker, phase) && WorldOwned(world) && PhaseOwned(world, worker, phase)
    requires IsSaving(phase) && Lands(world, phase, move, phase.job.iterNum) && IsStored(world, phase.job.iterNum, x)
    ensures x in phase.job.tasks && WellOwned(phase.job.tasks[x]) && WellOwned(StoredTask(world, phase.job.iterNum, x))
    ensures KeepsLimits(StoredTask(world, phase.job.iterNum, x), phase.job.tasks[x])
    ensures !IsTakenBack(world, worker, phase, move, phase.job.iterNum, x) ==>
              phase.job.tasks[x].attempt == StoredTask(world, phase.job.iterNum, x).attempt
                + if IsFreshStart(world, phase, move, phase.job.iterNum, x) then 1 else 0
  {
    var k := phase.job.iterNum;
    assert StoredOk(world, n, k);
    assert WrittenOk(world, world.store[k].version) && VersionOwned(world, world.store[k].version);
    var stored := world.store[k].job.tasks;
    assert StandsAt(worker, phase, stored, phase.job.tasks, x) && OwnedAt(stored, x) && OwnedAt(phase.job.tasks, x);
    if Drifts(stored[x], phase.job.tasks[x]) {
      DriftFacts(stored[x], phase.job.tasks[x]);
    }
  }

  lemma MoveKeepsBudget(def: JobDefinition, world: World, n: nat, worker: Id, phase: Phase, move: Move, k: nat, x: Id)
    requires IsLegal(def) && WorldOk(world, n) && PhaseOk(world, worker, phase)
    requires WorldOwned(world) && PhaseOwned(world, worker, phase) && IsStored(world, k, x)
    ensures var after := Act(def, world, worker, phase, move).0;
            && IsStored(after, k, x) && WellOwned(StoredTask(after, k, x))
            && KeepsLimits(StoredTask(world, k, x), StoredTask(after, k, x))
            && (!IsTakenBack(world, worker, phase, move, k, x) ==>
                  StoredTask(after, k, x).attempt == StoredTask(world, k, x).attempt
                    + if IsFreshStart(world, phase, move, k, x) then 1 else 0)
  {
    MoveWritesOrMints(def, world, worker, phase, move);
    if Lands(world, phase, move, k) {
      WriteKeepsBudget(world, n, worker, phase, move, x);
    } else {
      StoredIsOwned(world, n, k, x);
    }
  }

  lemma StoredIsOwned(world: World, n: nat, k: nat, x: Id)
    requires WorldOk(world, n) && WorldOwned(world) && IsStored(world, k, x)
    ensures WellOwned(StoredTask(world, k, x))
  {
    assert StoredOk(world, n, k);
    assert VersionOwned(world, world.store[k].version) && OwnedAt(world.store[k].job.tasks, x);
  }

  /** A task stored for the first time was never started. */
  lemma FirstStoredUnstarted(def: JobDefinition, world: World, n: nat, worker: Id, phase: Phase, move: Move, k: nat, x: Id)
    requires IsLegal(def) && WorldOk(world, n) && PhaseOk(world, worker, phase)
    requires WorldOwned(world) && PhaseOwned(world, worker, phase) && !IsStored(world, k, x)
    ensures var after := Act(def, world, worker, phase, move).0;
            IsStored(after, k, x) ==> StoredTask(after, k, x).attempt == 0 && WellOwned(StoredTask(after, k, x))
  {
    MoveWritesOrMints(def, world, worker, phase, move);
    if Lands(world, phase, move, k) && x in phase.job.tasks {
      assert OwnedAt(phase.job.tasks, x);
      if HasBase(phase) {
        assert StoredOk(world, n, k);
        assert IsGained(world.written[phase.job.version.value], phase.job, worker, x);
      }
    }
  }

  // ----- The ledger of a run -----

  /** Fresh starts, results brought back, and how far those lowered and raised the attempts. */
  datatype Ledger = Ledger(starts: nat, takenBack: nat, lowered: nat, raised: nat)

  ghost function LedgerOf(def: JobDefinition, moves: seq<(Id, Move)>, k: nat, x: Id): Ledger
    requires IsLegal(def)
  {
    if moves == [] then Ledger(0, 0, 0, 0)
    else
      var before := moves[..|moves| - 1];
      var (worker, move) := moves[|moves| - 1];
      Entered(LedgerOf(def, before, k, x), Run(def, before).world, Run(def, moves).world,
              worker, PhaseOf(Run(def, before), worker), move, k, x)
  }

  /** The ledger with one move entered. */
  ghost function Entered(l: Ledger, world: World, after: World, worker: Id, phase: Phase, move: Move, k: nat, x: Id): Ledger {
    if !IsStored(world, k, x) || !IsStored(after, k, x) then l
    else if IsTakenBack(world, worker, phase, move, k, x) then
      var was, now := StoredTask(world, k, x).attempt, StoredTask(after, k, x).attempt;
      l.(takenBack := l.takenBack + 1,
         lowered := l.lowered + if now < was then was - now else 0,
         raised := l.raised + if was < now then now - was else 0)
    else if IsFreshStart(world, phase, move, k, x) then l.(starts := l.starts + 1)
    else l
  }

  /** The books balance, and one result brought back lowers the attempts by less than the budget. */
  ghost predicate IsBalanced(l: Ledger, t: Task) {
    && WellOwned(t)
    && t.attempt + l.lowered == l.starts + l.raised
    && l.lowered <= l.takenBack * (t.maxAttempts - 1)
  }

  ghost predicate BooksOk(l: Ledger, world: World, k: nat, x: Id) {
    if IsStored(world, k, x) then IsBalanced(l, StoredTask(world, k, x)) else l == Ledger(0, 0, 0, 0)
  }

  lemma OneMoreTakenBack(takenBack: nat, lowered: nat, budget: nat, drop: nat)
    requires lowered <= takenBack * budget && drop <= budget
    ensures lowered + drop <= (takenBack + 1) * budget
  {
    assert (takenBack + 1) * budget == takenBack * budget + budget;
  }

  lemma EnteringBalances(l: Ledger, was: Task, now: Task, isTakenBack: bool, isFresh: bool)
    requires IsBalanced(l, was) && WellOwned(now) && now.maxAttempts == was.maxAttempts
    requires isTakenBack ==> was.owner.Some? && now.owner.Some?
    requires !isTakenBack ==> now.attempt == was.attempt + if isFresh then 1 else 0
    ensures isTakenBack ==>
              IsBalanced(l.(takenBack := l.takenBack + 1,
                            lowered := l.lowered + if now.attempt < was.attempt then was.attempt - now.attempt else 0,
                            raised := l.raised + if was.attempt < now.attempt then now.attempt - was.attempt else 0), now)
    ensures !isTakenBack ==> IsBalanced(if isFresh then l.(starts := l.starts + 1) else l, now)
  {
    if isTakenBack {
      OneMoreTakenBack(l.takenBack, l.lowered, was.maxAttempts - 1,
                       if now.attempt < was.attempt then was.attempt - now.attempt else 0);
    }
  }

  lemma MoveBalances(def: JobDefinition, world: World, n: nat, worker: Id, phase: Phase, move: Move, k: nat, x: Id, l: Ledger)
    requires IsLegal(def) && WorldOk(world, n) && PhaseOk(world, worker, phase)
    requires WorldOwned(world) && PhaseOwned(world, worker, phase) && BooksOk(l, world, k, x)
    ensures var after := Act(def, world, worker, phase, move).0;
            BooksOk(Entered(l, world, after, worker, phase, move, k, x), after, k, x)
  {
    if IsStored(world, k, x) {
      MoveKeepsBudget(def, world, n, worker, phase, move, k, x);
      var after := Act(def, world, worker, phase, move).0;
      TakenBackIsOwned(def, world, worker, phase, move, k, x);
      EnteringBalances(l, StoredTask(world, k, x), StoredTask(after, k, x),
                       IsTakenBack(world, worker, phase, move, k, x), IsFreshStart(world, phase, move, k, x));
    } else {
      FirstStoredUnstarted(def, world, n, worker, phase, move, k, x);
    }
  }

  lemma TakenBackIsOwned(def: JobDefinition, world: World, worker: Id, phase: Phase, move: Move, k: nat, x: Id)
    requires IsLegal(def)
    ensures var after := Act(def, world, worker, phase, move).0;
            IsTakenBack(world, worker, phase, move, k, x) && IsStored(after, k, x) ==> StoredTask(after, k, x).owner == Some(worker)
  {
    MoveWritesOrMints(def, world, worker, phase, move);
  }

  lemma {:induction false} RunBalances(def: JobDefinition, moves: seq<(Id, Move)>, k: nat, x: Id)
    requires IsLegal(def)
    ensures BooksOk(LedgerOf(def, moves, k, x), Run(def, moves).world, k, x)
  {
    if moves != [] {
      var before := moves[..|moves| - 1];
      var (worker, move) := moves[|moves| - 1];
      RunBalances(def, before, k, x);
      RunStaysOwned(def, before);
      var n := RunKeepsSystem(def, before);
      var s := Run(def, before);
      assert WorkerOk(s, worker) && OwnedBy(s, worker);
      MoveBalances(def, s.world, n, worker, PhaseOf(s, worker), move, k, x, LedgerOf(def, before, k, x));
    }
  }

  /**
   * Attempts are fresh starts, less what was lowered and plus what was raised by results brought back.
   * Fresh starts stay within the budget as long as none is brought back, and exceed it by less than
   * a budget for each one that is.
   */
  ghost predicate IsWithinBudget(l: Ledger, t: Task) {
    && t.attempt + l.lowered == l.starts + l.raised
    && t.attempt <= t.maxAttempts
    && l.starts <= t.maxAttempts + l.takenBack * (t.maxAttempts - 1)
    && (l.takenBack == 0 ==> l.starts <= t.attempt)
  }

  lemma BalancedIsBounded(l: Ledger, world: World, k: nat, x: Id)
    requires IsStored(world, k, x) && BooksOk(l, world, k, x)
    ensures IsWithinBudget(l, StoredTask(world, k, x))
  {
  }

  // ----- The promises -----

  /** In every run, the books of every stored task balance, and bound its fresh starts. */
  lemma {:induction false} FreshStartsAreBounded(def: JobDefinition, moves: seq<(Id, Move)>, k: nat, x: Id)
    requires IsLegal(def) && IsStored(Run(def, moves).world, k, x)
    ensures IsWithinBudget(LedgerOf(def, moves, k, x), StoredTask(Run(def, moves).world, k, x))
  {
    RunBalances(def, moves, k, x);
    BalancedIsBounded(LedgerOf(def, moves, k, x), Run(def, moves).world, k, x);
  }

  /** In every run, a stored task's attempts fall only as a worker brings back what another has taken over. */
  lemma {:induction false} AttemptsFallOnlyWhenTakenBack(def: JobDefinition, moves: seq<(Id, Move)>, k: nat, x: Id)
    requires IsLegal(def) && moves != [] && IsStored(Run(def, moves[..|moves| - 1]).world, k, x)
    ensures var s, after := Run(def, moves[..|moves| - 1]), Run(def, moves).world;
            var (worker, move) := moves[|moves| - 1];
            && IsStored(after, k, x)
            && (StoredTask(after, k, x).attempt < StoredTask(s.world, k, x).attempt ==>
                  IsTakenBack(s.world, worker, PhaseOf(s, worker), move, k, x))
  {
    var before := moves[..|moves| - 1];
    var (worker, move) := moves[|moves| - 1];
    RunStaysOwned(def, before);
    var n := RunKeepsSystem(def, before);
    var s := Run(def, before);
    assert WorkerOk(s, worker) && OwnedBy(s, worker);
    MoveKeepsBudget(def, s.world, n, worker, PhaseOf(s, worker), move, k, x);
  }

  /** In every run, a stored task keeps its budget, and its lifetime deadline once it has one. */
  lemma {:induction false} StoredLimitsNeverMove(def: JobDefinition, moves: seq<(Id, Move)>, i: nat, k: nat, x: Id)
    requires IsLegal(def) && i <= |moves| && IsStored(Run(def, moves[..i]).world, k, x)
    ensures IsStored(Run(def, moves).world, k, x)
    ensures KeepsLimits(StoredTask(Run(def, moves[..i]).world, k, x), StoredTask(Run(def, moves).world, k, x))
    decreases |moves|
  {
    if i == |moves| {
      assert moves[..i] == moves;
    } else {
      var before := moves[..|moves| - 1];
      var (worker, move) := moves[|moves| - 1];
      assert before[..i] == moves[..i];
      StoredLimitsNeverMove(def, before, i, k, x);
      RunStaysOwned(def, before);
      var n := RunKeepsSystem(def, before);
      var s := Run(def, before);
      assert WorkerOk(s, worker) && OwnedBy(s, worker);
      MoveKeepsBudget(def, s.world, n, worker, PhaseOf(s, worker), move, k, x);
    }
  }
}
