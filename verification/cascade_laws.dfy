/** What the cascade and the settling leave, said in statuses and tolerances alone. */
module CascadeLaws {
  import opened Base
  import opened Tasks
  import opened TaskLaws
  import opened Cascades
  import opened Settling

  /** Some dependency of the task fails it. */
  ghost predicate IsFailedBySome(tasks: TaskMap, t: Task, now: Moment) {
    exists d :: d in t.dependsOn && d in tasks && FailsIt(t, tasks[d], now)
  }

  ghost predicate IsPassedBySome(tasks: TaskMap, t: Task) {
    exists d :: d in t.dependsOn && d in tasks && PassesItBy(t, tasks[d])
  }

  /** A task is blamed exactly if a dependency fails it or passes it by, and for a failure if one fails it. */
  lemma BlameLaw(tasks: TaskMap, id: Id, now: Moment)
    requires id in tasks
    ensures BlameOf(tasks, id, now).Some? <==>
            IsFailedBySome(tasks, tasks[id], now) || IsPassedBySome(tasks, tasks[id])
    ensures BlameOf(tasks, id, now).Some? ==>
              BlameOf(tasks, id, now).value.cause
              == if IsFailedBySome(tasks, tasks[id], now) then FailedDependency else SkippedDependency
  {
    var t, blame := tasks[id], BlameOf(tasks, id, now);
    forall d | d in tasks
      ensures Refuses(tasks, t, d, now) <==> FailsIt(t, tasks[d], now) || PassesItBy(t, tasks[d])
      ensures RefusesFailure(tasks, t, d, now) <==> FailsIt(t, tasks[d], now)
    {
      JudgementLaw(t, tasks[d], now);
    }
    if blame.Some? {
      JudgementLaw(t, tasks[blame.value.dependency], now);
      assert Refuses(tasks, t, blame.value.dependency, now);
    }
  }

  /**
   * One generation: a blocked task that a dependency fails or passes by is skipped for it, the others
   * stay as they are.
   */
  lemma GenerationLaw(tasks: TaskMap, now: Moment, id: Id)
    requires id in tasks
    ensures CascadeStep(tasks, now).Keys == tasks.Keys
    ensures var t, after := tasks[id], CascadeStep(tasks, now)[id];
            var isFailed := IsFailedBySome(tasks, t, now);
            if t.status == Blocked && (isFailed || IsPassedBySome(tasks, t))
            then && after.reason.UnreachableDependency?
                 && after.reason.dependency in t.dependsOn && after.reason.dependency in tasks
                 && (if isFailed then FailsIt(t, tasks[after.reason.dependency], now)
                     else PassesItBy(t, tasks[after.reason.dependency]))
                 && after == t.(status := Skipped(if isFailed then FailedDependency else SkippedDependency),
                                reason := after.reason, completedAt := Some(now))
            else after == t
  {
    BlameLaw(tasks, id, now);
    if id in Generation(tasks, now) {
      JudgementLaw(tasks[id], tasks[BlameOf(tasks, id, now).value.dependency], now);
    }
  }

  /** The cascade goes on, generation after generation, until one would be empty. */
  lemma {:induction false} CascadeLaw(tasks: TaskMap, now: Moment) returns (last: nat)
    ensures Iterate(tasks, now, 0) == tasks
    ensures forall k: nat :: Iterate(tasks, now, k + 1) == CascadeStep(Iterate(tasks, now, k), now)
    ensures Cascade(tasks, now) == Iterate(tasks, now, last)
    ensures forall id :: id in Cascade(tasks, now) && Cascade(tasks, now)[id].status == Blocked ==>
              var t := Cascade(tasks, now)[id];
              !IsFailedBySome(Cascade(tasks, now), t, now) && !IsPassedBySome(Cascade(tasks, now), t)
    decreases BlockedIds(tasks)
  {
    forall k: nat ensures Iterate(tasks, now, k + 1) == CascadeStep(Iterate(tasks, now, k), now) {
      StepsCommute(tasks, now, k);
    }
    if Generation(tasks, now) == {} {
      last := 0;
    } else {
      StepShrinksBlocked(tasks, now);
      var rest := CascadeLaw(CascadeStep(tasks, now), now);
      last := rest + 1;
    }
    CascadeOnlyPutsOut(tasks, now);
    var final := Cascade(tasks, now);
    forall id | id in final && final[id].status == Blocked
      ensures !IsFailedBySome(final, final[id], now) && !IsPassedBySome(final, final[id])
    {
      BlameLaw(final, id, now);
      assert id !in Generation(final, now);
    }
  }

  lemma {:induction false} StepsCommute(tasks: TaskMap, now: Moment, k: nat)
    ensures Iterate(tasks, now, k + 1) == CascadeStep(Iterate(tasks, now, k), now)
  {
    if k > 0 {
      StepsCommute(CascadeStep(tasks, now), now, k - 1);
    }
  }

  /**
   * The cause a task is left with, by what its dependencies are when its generation is judged: a
   * failure exactly if one of them failed for good and it does not survive failures, or was itself
   * skipped for a failure and it does not survive skips; otherwise a skip handed down.
   */
  lemma CauseLaw(tasks: TaskMap, now: Moment, id: Id) returns (k: nat)
    requires id in PutOutIds(tasks, now)
    ensures id in Cascade(tasks, now) && id in tasks
    ensures var before := Iterate(tasks, now, k);
            && id in before && before[id] == tasks[id] && tasks[id].status == Blocked
            && (IsFailedBySome(before, tasks[id], now) || IsPassedBySome(before, tasks[id]))
            && Cascade(tasks, now)[id].status
               == Skipped(if IsFailedBySome(before, tasks[id], now) then FailedDependency else SkippedDependency)
  {
    k := PutOutIsJudgedOnce(tasks, now, id);
    BlockedIsUntouched(tasks, now, id, k);
    BlameLaw(Iterate(tasks, now, k), id, now);
  }

  lemma {:induction false} StepGoesOn(tasks: TaskMap, now: Moment)
    ensures Cascade(CascadeStep(tasks, now), now) == Cascade(tasks, now)
  {
    if Generation(tasks, now) == {} {
      assert CascadeStep(tasks, now) == tasks;
    }
  }

  lemma {:induction false} CascadeGoesOn(tasks: TaskMap, now: Moment, k: nat)
    ensures Cascade(Iterate(tasks, now, k), now) == Cascade(tasks, now)
  {
    if k > 0 {
      CascadeGoesOn(CascadeStep(tasks, now), now, k - 1);
      StepGoesOn(tasks, now);
    }
  }

  lemma {:induction false} NeverPassedBy(tasks: TaskMap, now: Moment, id: Id, k: nat)
    requires id in tasks && id in Cascade(tasks, now)
    requires !IsPassedBySome(Cascade(tasks, now), tasks[id])
    ensures !IsPassedBySome(Iterate(tasks, now, k), tasks[id])
  {
    var before, final := Iterate(tasks, now, k), Cascade(tasks, now);
    CascadeGoesOn(tasks, now, k);
    CascadeOnlyPutsOut(before, now);
    forall d | d in tasks[id].dependsOn && d in before ensures !PassesItBy(tasks[id], before[d]) {
      assert LeftOrPutOut(before[d], final[d]);
    }
  }

  /**
   * A failure travels along any chain none of whose links survives it: whoever waits for a failure, or
   * for a task skipped for one, is skipped too, and for that failure unless another dependency was
   * skipped by decision.
   */
  lemma {:induction false} FailureTravels(tasks: TaskMap, now: Moment, id: Id, d: Id)
    requires id in tasks && tasks[id].status.Blocked? && d in tasks[id].dependsOn
    requires d in Cascade(tasks, now) && FailsIt(tasks[id], Cascade(tasks, now)[d], now)
    ensures id in Cascade(tasks, now) && Cascade(tasks, now)[id].status.Skipped?
    ensures !IsPassedBySome(Cascade(tasks, now), tasks[id]) ==> Cascade(tasks, now)[id].status == Skipped(FailedDependency)
  {
    CascadeOnlyPutsOut(tasks, now);
    var final := Cascade(tasks, now);
    assert LeftOrPutOut(tasks[id], final[id]);
    if final[id].status.Blocked? {
      JudgementLaw(final[id], final[d], now);
      RefusedIsInGeneration(final, id, d, now);
      assert false;
    }
    assert id in PutOutIds(tasks, now);
    var k := CauseLaw(tasks, now, id);
    if !IsPassedBySome(final, tasks[id]) {
      NeverPassedBy(tasks, now, id, k);
    }
  }

  /** A blocked task is released exactly if every dependency is there and satisfies it. */
  lemma ReleaseLaw(tasks: TaskMap, now: Moment, id: Id)
    requires id in tasks
    ensures id in UnblockSatisfied(tasks, now)
    ensures var t := tasks[id];
            var isSatisfied := forall d :: d in t.dependsOn ==> d in tasks && SatisfiesIt(t, tasks[d], now);
            UnblockSatisfied(tasks, now)[id] == if t.status == Blocked && isSatisfied then t.(status := Todo) else t
  {
    var t := tasks[id];
    forall d | d in tasks ensures JudgeDependency(t, tasks[d], now).Unblocked? <==> SatisfiesIt(t, tasks[d], now) {
      JudgementLaw(t, tasks[d], now);
    }
  }

  /** What keeps an iteration open: a running task, one that may be started, or one whose retry rests. */
  lemma OpenLaw(tasks: TaskMap, now: Moment)
    ensures AnyKeepsOpen(tasks, now) <==>
            exists id :: id in tasks && (tasks[id].status == Started || IsFree(tasks[id], now) || Rests(tasks[id], now))
    ensures AllResolved(tasks) <==>
            && (exists id :: id in tasks)
            && forall id :: id in tasks ==> tasks[id].status == Completed || tasks[id].status == Failed || tasks[id].status.Skipped?
  {
    forall id | id in tasks
      ensures KeepsOpen(tasks[id], now) <==> tasks[id].status == Started || IsFree(tasks[id], now) || Rests(tasks[id], now)
      ensures IsResolved(tasks[id]) <==> tasks[id].status == Completed || tasks[id].status == Failed || tasks[id].status.Skipped?
    {
      AvailabilityLaw(tasks[id], now);
    }
    if AnyKeepsOpen(tasks, now) {
      var id :| id in tasks && KeepsOpen(tasks[id], now);
      assert tasks[id].status == Started || IsFree(tasks[id], now) || Rests(tasks[id], now);
    }
  }

  /** `f` failed for good and nobody who waited for it and survives failures resolved on its own. */
  ghost predicate IsLeftUnhandled(tasks: TaskMap, f: Id, now: Moment) {
    && f in tasks && FailedForGood(tasks[f], now)
    && forall id :: id in tasks && f in tasks[id].dependsOn && tasks[id].tolerance.allowsFailed ==>
         tasks[id].status != Completed && tasks[id].status != Skipped(ExecutorDecision)
  }

  lemma VerdictLaw(tasks: TaskMap, now: Moment)
    ensures VerdictOf(tasks, now) == IterationFailed <==>
            || (exists id :: id in tasks && tasks[id].status == Skipped(FailedDependency))
            || (exists f :: IsLeftUnhandled(tasks, f, now))
  {
    forall f ensures Unanswered(tasks, f, now) <==> IsLeftUnhandled(tasks, f, now) {
      if Unanswered(tasks, f, now) {
        forall id | id in tasks && f in tasks[id].dependsOn && tasks[id].tolerance.allowsFailed
          ensures tasks[id].status != Completed && tasks[id].status != Skipped(ExecutorDecision)
        {
          assert !AnswersFor(tasks[id], f);
        }
      }
    }
  }
}
