/**
 * Settling an iteration: what the state implies is applied, and the iteration is closed once
 * nothing in it can move. The closing verdict, and why settling never meets a deadlock.
 */
module Settling {
  import opened Base
  import opened Tasks
  import opened Cascades

  datatype Verdict = IterationCompleted | IterationFailed

  predicate DependenciesSatisfied(tasks: TaskMap, t: Task, now: Moment) {
    forall d :: d in t.dependsOn ==> d in tasks && JudgeDependency(t, tasks[d], now).Unblocked?
  }

  function UnblockSatisfied(tasks: TaskMap, now: Moment): TaskMap {
    map id | id in tasks ::
      if tasks[id].status.Blocked? && DependenciesSatisfied(tasks, tasks[id], now)
      then Tasks.Unblock(tasks[id]) else tasks[id]
  }

  /** The state with everything it implies applied: the cascade, then the unblocking. */
  function Derived(tasks: TaskMap, now: Moment): TaskMap {
    UnblockSatisfied(Cascade(tasks, now), now)
  }

  predicate KeepsOpen(t: Task, now: Moment) {
    t.status.Started? || CheckAvailability(t, now).Pickable? || CheckAvailability(t, now).AwaitingRetry?
  }

  predicate AnyKeepsOpen(tasks: TaskMap, now: Moment) {
    exists id :: id in tasks && KeepsOpen(tasks[id], now)
  }

  predicate AllResolved(tasks: TaskMap) {
    tasks != map[] && forall id :: id in tasks ==> IsResolved(tasks[id])
  }

  // ----- The verdict, as a rule -----

  predicate HasSkippedForFailure(tasks: TaskMap) {
    exists id :: id in tasks && tasks[id].status == Skipped(FailedDependency)
  }

  /** `t` declared it survives failures, waited for `f`, and resolved on its own. */
  predicate AnswersFor(t: Task, f: Id) {
    && t.tolerance.allowsFailed
    && (t.status.Completed? || t.status == Skipped(ExecutorDecision))
    && f in t.dependsOn
  }

  predicate Unanswered(tasks: TaskMap, f: Id, now: Moment) {
    && f in tasks
    && IsTerminallyFailed(tasks[f], now)
    && (forall id :: id in tasks ==> !AnswersFor(tasks[id], f))
  }

  predicate FailureLeftUnhandled(tasks: TaskMap, now: Moment) {
    HasSkippedForFailure(tasks) || exists f :: f in tasks && Unanswered(tasks, f, now)
  }

  function VerdictOf(tasks: TaskMap, now: Moment): Verdict {
    if FailureLeftUnhandled(tasks, now) then IterationFailed else IterationCompleted
  }

  /** The two-pass strike-off computes the rule, whatever order the tasks are visited in. */
  method DeriveIterationVerdict(tasks: TaskMap, now: Moment) returns (v: Verdict)
    ensures v == IterationFailed <==>
            || (exists id :: id in tasks && tasks[id].status == Skipped(FailedDependency))
            || (exists f :: && f in tasks && IsTerminallyFailed(tasks[f], now)
                            && forall id :: id in tasks ==> !AnswersFor(tasks[id], f))
  {
    var unhandled: set<Id> := {};
    var left := tasks.Keys;
    while left != {}
      invariant left <= tasks.Keys
      invariant forall id :: id in tasks && id !in left ==> tasks[id].status != Skipped(FailedDependency)
      invariant forall id :: id in unhandled <==> id in tasks && id !in left && IsTerminallyFailed(tasks[id], now)
      decreases left
    {
      var id :| id in left;
      left := left - {id};
      if tasks[id].status.Skipped? && CarriesFailure(tasks[id].status.cause) {
        return IterationFailed;
      }
      if IsTerminallyFailed(tasks[id], now) {
        unhandled := unhandled + {id};
      }
    }
    if unhandled == {} {
      return IterationCompleted;
    }
    left := tasks.Keys;
    while left != {}
      invariant left <= tasks.Keys
      invariant forall f :: f in unhandled <==>
                              && f in tasks && IsTerminallyFailed(tasks[f], now)
                              && (forall id :: id in tasks && id !in left ==> !AnswersFor(tasks[id], f))
      decreases left
    {
      var id :| id in left;
      left := left - {id};
      var hasResolvedItself := tasks[id].status.Completed? || tasks[id].status == Skipped(ExecutorDecision);
      if !tasks[id].tolerance.allowsFailed || !hasResolvedItself {
        assert forall f :: !AnswersFor(tasks[id], f);
        continue;
      }
      assert forall f :: AnswersFor(tasks[id], f) <==> f in tasks[id].dependsOn;
      unhandled := unhandled - (set f | f in tasks[id].dependsOn);
    }
    return if unhandled == {} then IterationCompleted else IterationFailed;
  }

  // ----- The verdict, read off the state before the cascade -----

  /** A blocked task waits for a terminal failure it does not tolerate. */
  ghost predicate BlockedOnFailure(tasks: TaskMap, now: Moment) {
    exists id, d ::
      && id in tasks && tasks[id].status.Blocked? && !tasks[id].tolerance.allowsFailed
      && d in tasks[id].dependsOn && d in tasks && IsTerminallyFailed(tasks[d], now)
  }

  lemma StepIntroducesNoFailure(tasks: TaskMap, now: Moment)
    requires !HasSkippedForFailure(tasks) && !BlockedOnFailure(tasks, now)
    ensures !HasSkippedForFailure(CascadeStep(tasks, now)) && !BlockedOnFailure(CascadeStep(tasks, now), now)
  {
    var next := CascadeStep(tasks, now);
    forall id | id in next ensures next[id].status != Skipped(FailedDependency) {
      if id in Generation(tasks, now) {
        var blame := BlameOf(tasks, id, now).value;
        assert JudgeDependency(tasks[id], tasks[blame.dependency], now) == Unreachable(blame.cause);
      }
    }
  }

  lemma {:induction false} CascadeIntroducesNoFailure(tasks: TaskMap, now: Moment)
    requires !HasSkippedForFailure(tasks) && !BlockedOnFailure(tasks, now)
    ensures !HasSkippedForFailure(Cascade(tasks, now))
    decreases BlockedIds(tasks)
  {
    if Generation(tasks, now) != {} {
      StepShrinksBlocked(tasks, now);
      StepIntroducesNoFailure(tasks, now);
      CascadeIntroducesNoFailure(CascadeStep(tasks, now), now);
    }
  }

  lemma {:induction false} BlockedOnFailureIsPutOut(tasks: TaskMap, now: Moment)
    requires BlockedOnFailure(tasks, now)
    ensures HasSkippedForFailure(Cascade(tasks, now))
  {
    var id, d :| && id in tasks && tasks[id].status.Blocked? && !tasks[id].tolerance.allowsFailed
                 && d in tasks[id].dependsOn && d in tasks && IsTerminallyFailed(tasks[d], now);
    assert RefusesFailure(tasks, tasks[id], d, now) && Refuses(tasks, tasks[id], d, now);
    RefusedIsInGeneration(tasks, id, d, now);
    StepShrinksBlocked(tasks, now);
    var next := CascadeStep(tasks, now);
    assert next[id].status == Skipped(FailedDependency);
    CascadeOnlyPutsOut(next, now);
    assert Cascade(tasks, now) == Cascade(next, now);
    assert LeftOrPutOut(next[id], Cascade(next, now)[id]);
  }

  lemma SkippedForFailureComesFrom(tasks: TaskMap, now: Moment)
    ensures HasSkippedForFailure(Derived(tasks, now)) <==>
            HasSkippedForFailure(tasks) || BlockedOnFailure(tasks, now)
  {
    CascadeOnlyPutsOut(tasks, now);
    var cascaded := Cascade(tasks, now);
    if HasSkippedForFailure(tasks) {
      var id :| id in tasks && tasks[id].status == Skipped(FailedDependency);
      assert LeftOrPutOut(tasks[id], cascaded[id]);
      assert Derived(tasks, now)[id].status == Skipped(FailedDependency);
    } else if BlockedOnFailure(tasks, now) {
      BlockedOnFailureIsPutOut(tasks, now);
      var id :| id in cascaded && cascaded[id].status == Skipped(FailedDependency);
      assert Derived(tasks, now)[id].status == Skipped(FailedDependency);
    } else {
      CascadeIntroducesNoFailure(tasks, now);
      forall id | id in cascaded ensures Derived(tasks, now)[id].status != Skipped(FailedDependency) {
        assert cascaded[id].status != Skipped(FailedDependency);
      }
    }
  }

  /** Deriving moves no failure and no answer for one. */
  lemma DerivingKeepsAnswers(tasks: TaskMap, now: Moment, f: Id)
    ensures Unanswered(Derived(tasks, now), f, now) <==> Unanswered(tasks, f, now)
  {
    CascadeOnlyPutsOut(tasks, now);
    var derived := Derived(tasks, now);
    assert derived.Keys == tasks.Keys;
    forall id | id in tasks
      ensures IsTerminallyFailed(derived[id], now) <==> IsTerminallyFailed(tasks[id], now)
      ensures AnswersFor(derived[id], f) <==> AnswersFor(tasks[id], f)
    {
      assert LeftOrPutOut(tasks[id], Cascade(tasks, now)[id]);
    }
  }

  /**
   * The verdict settling reaches can be read off the state before it: failed exactly when a task is
   * already skipped for a failure, a blocked one waits intolerantly for a terminal failure, or a
   * terminal failure has no failure-tolerant dependent that resolved on its own.
   */
  lemma VerdictIsReadBeforeTheCascade(tasks: TaskMap, now: Moment)
    ensures VerdictOf(Derived(tasks, now), now) == IterationFailed <==>
            || HasSkippedForFailure(tasks)
            || BlockedOnFailure(tasks, now)
            || exists f :: f in tasks && Unanswered(tasks, f, now)
  {
    SkippedForFailureComesFrom(tasks, now);
    CascadeOnlyPutsOut(tasks, now);
    forall f ensures Unanswered(Derived(tasks, now), f, now) <==> Unanswered(tasks, f, now) {
      DerivingKeepsAnswers(tasks, now, f);
    }
  }

  // ----- Deadlock freedom -----

  ghost predicate DependencyClosed(tasks: TaskMap) {
    forall id, d :: id in tasks && d in tasks[id].dependsOn ==> d in tasks
  }

  ghost predicate RankedBy(tasks: TaskMap, rank: map<Id, nat>) {
    && tasks.Keys <= rank.Keys
    && (forall id, d :: id in tasks && d in tasks[id].dependsOn && d in rank ==> rank[d] < rank[id])
  }

  ghost predicate Acyclic(tasks: TaskMap) {
    exists rank: map<Id, nat> :: RankedBy(tasks, rank)
  }

  lemma DerivingKeepsGraph(tasks: TaskMap, now: Moment)
    ensures Derived(tasks, now).Keys == tasks.Keys
    ensures forall id :: id in tasks ==> Derived(tasks, now)[id].dependsOn == tasks[id].dependsOn
  {
    CascadeOnlyPutsOut(tasks, now);
    forall id | id in tasks ensures Derived(tasks, now)[id].dependsOn == tasks[id].dependsOn {
      assert LeftOrPutOut(tasks[id], Cascade(tasks, now)[id]);
    }
  }

  /** A task whose dependency is neither accepted nor refused waits for one that can still move. */
  lemma UndecidedIsUnsettled(t: Task, dep: Task, now: Moment)
    requires !JudgeDependency(t, dep, now).Unblocked? && !JudgeDependency(t, dep, now).Unreachable?
    ensures dep.status.Blocked? || KeepsOpen(dep, now)
  {
  }

  /** With no one left to put out and nothing that can move, a blocked task waits for another one. */
  lemma StuckWaitsForStuck(cascaded: TaskMap, now: Moment, id: Id) returns (d: Id)
    requires DependencyClosed(cascaded) && Generation(cascaded, now) == {}
    requires !AnyKeepsOpen(UnblockSatisfied(cascaded, now), now)
    requires id in cascaded && UnblockSatisfied(cascaded, now)[id].status.Blocked?
    ensures d in cascaded && UnblockSatisfied(cascaded, now)[d].status.Blocked?
    ensures d in cascaded[id].dependsOn
  {
    var t := cascaded[id];
    d :| d in t.dependsOn && !(d in cascaded && JudgeDependency(t, cascaded[d], now).Unblocked?);
    assert id !in Generation(cascaded, now);
    NoRefusalLeft(cascaded, id, d, now);
    UndecidedIsUnsettled(t, cascaded[d], now);
    assert !KeepsOpen(UnblockSatisfied(cascaded, now)[d], now);
  }

  /** In a derived state where nothing can move, a blocked task waits for another blocked one. */
  lemma BlockedWaitsForBlocked(tasks: TaskMap, now: Moment, id: Id) returns (d: Id)
    requires DependencyClosed(tasks)
    requires !AnyKeepsOpen(Derived(tasks, now), now)
    requires id in Derived(tasks, now) && Derived(tasks, now)[id].status.Blocked?
    ensures d in Derived(tasks, now) && Derived(tasks, now)[d].status.Blocked?
    ensures id in tasks && d in tasks[id].dependsOn
  {
    CascadeOnlyPutsOut(tasks, now);
    var cascaded := Cascade(tasks, now);
    forall x | x in tasks ensures cascaded[x].dependsOn == tasks[x].dependsOn {
      assert LeftOrPutOut(tasks[x], cascaded[x]);
    }
    assert DependencyClosed(cascaded);
    d := StuckWaitsForStuck(cascaded, now, id);
  }

  lemma {:induction false} NothingBlockedWhenStuck(tasks: TaskMap, rank: map<Id, nat>, now: Moment, id: Id)
    requires DependencyClosed(tasks) && RankedBy(tasks, rank)
    requires !AnyKeepsOpen(Derived(tasks, now), now)
    requires id in Derived(tasks, now) && id in rank
    ensures !Derived(tasks, now)[id].status.Blocked?
    decreases rank[id]
  {
    if Derived(tasks, now)[id].status.Blocked? {
      var d := BlockedWaitsForBlocked(tasks, now, id);
      NothingBlockedWhenStuck(tasks, rank, now, d);
    }
  }

  /**
   * Settling a non-empty, acyclic, dependency-closed iteration judged at a single moment leaves a
   * task that is running, may be picked up or awaits its retry, or every task resolved.
   */
  lemma SettlingNeverDeadlocks(tasks: TaskMap, now: Moment)
    requires tasks != map[] && DependencyClosed(tasks) && Acyclic(tasks)
    ensures AnyKeepsOpen(Derived(tasks, now), now) || AllResolved(Derived(tasks, now))
  {
    var rank :| RankedBy(tasks, rank);
    var derived := Derived(tasks, now);
    DerivingKeepsGraph(tasks, now);
    if !AnyKeepsOpen(derived, now) {
      forall id | id in derived ensures IsResolved(derived[id]) {
        NothingBlockedWhenStuck(tasks, rank, now, id);
        assert !KeepsOpen(derived[id], now);
      }
      assert derived != map[] by {
        var id :| id in tasks;
        assert id in derived;
      }
    }
  }
}
