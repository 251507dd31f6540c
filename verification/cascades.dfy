/**
 * The skip cascade: which blocked tasks can never be satisfied, generation by generation, and why
 * the outcome is the least fixpoint of "has a dependency it cannot accept".
 */
module Cascades {
  import opened Base
  import opened Tasks
  import opened TaskLaws

  /** The tasks of one iteration, by identifier. */
  type TaskMap = map<Id, Task>

  /** What puts a task out: a cause, and the dependency it was judged from. */
  datatype Blame = Blame(cause: SkipCause, dependency: Id)

  /** `t` cannot accept its dependency `d`, for a failure or for a decision. */
  ghost predicate Refuses(tasks: TaskMap, t: Task, d: Id, now: Moment) {
    d in tasks && (FailsIt(t, tasks[d], now) || PassesItBy(t, tasks[d]))
  }

  /** A failure is what `t` cannot accept of `d`: its own, or one it was skipped for. */
  ghost predicate RefusesFailure(tasks: TaskMap, t: Task, d: Id, now: Moment) {
    d in tasks && FailsIt(t, tasks[d], now)
  }

  /**
   * The dependency among `deps` that makes `t` unreachable, if any. Failures win over
   * skips, and the later of two equal ones is named.
   */
  function FindUnreachableDependency(tasks: TaskMap, t: Task, deps: seq<Id>, now: Moment): (r: Option<Blame>)
    ensures r.None? <==> forall d :: d in deps ==> !Refuses(tasks, t, d, now)
    ensures r.Some? ==> r.value.dependency in deps && r.value.dependency in tasks
    ensures r.Some? ==> JudgeDependency(t, tasks[r.value.dependency], now) == Unreachable(r.value.cause)
    ensures r.Some? ==>
              (CarriesFailure(r.value.cause) <==> exists d :: d in deps && RefusesFailure(tasks, t, d, now))
  {
    if deps == [] then None
    else
      var last := deps[|deps| - 1];
      assert deps == deps[..|deps| - 1] + [last];
      var best := FindUnreachableDependency(tasks, t, deps[..|deps| - 1], now);
      if last !in tasks then best
      else
        match JudgeDependency(t, tasks[last], now)
        case Unreachable(cause) =>
          if best.Some? && CarriesFailure(best.value.cause) && !CarriesFailure(cause) then best
          else
            assert Refuses(tasks, t, last, now);
            Some(Blame(cause, last))
        case _ => best
  }

  function BlameOf(tasks: TaskMap, id: Id, now: Moment): Option<Blame>
    requires id in tasks
  {
    FindUnreachableDependency(tasks, tasks[id], tasks[id].dependsOn, now)
  }

  function BlockedIds(tasks: TaskMap): set<Id> {
    set id | id in tasks && tasks[id].status.Blocked?
  }

  /** The blocked tasks this state already makes unreachable. */
  function Generation(tasks: TaskMap, now: Moment): set<Id> {
    set id | id in tasks && tasks[id].status.Blocked? && BlameOf(tasks, id, now).Some?
  }

  function PutOut(t: Task, blame: Blame, now: Moment): Task {
    t.(reason := UnreachableDependency(blame.dependency), status := Skipped(blame.cause), completedAt := Some(now))
  }

  /** One whole generation put out at once. */
  function CascadeStep(tasks: TaskMap, now: Moment): TaskMap {
    map id | id in tasks ::
      if id in Generation(tasks, now) then PutOut(tasks[id], BlameOf(tasks, id, now).value, now) else tasks[id]
  }

  function Iterate(tasks: TaskMap, now: Moment, k: nat): TaskMap {
    if k == 0 then tasks else Iterate(CascadeStep(tasks, now), now, k - 1)
  }

  /** Generations put out until none is left. */
  function Cascade(tasks: TaskMap, now: Moment): TaskMap
    decreases BlockedIds(tasks)
  {
    if Generation(tasks, now) == {} then tasks
    else
      StepShrinksBlocked(tasks, now);
      Cascade(CascadeStep(tasks, now), now)
  }

  lemma StepShrinksBlocked(tasks: TaskMap, now: Moment)
    ensures BlockedIds(CascadeStep(tasks, now)) == BlockedIds(tasks) - Generation(tasks, now)
    ensures Generation(tasks, now) <= BlockedIds(tasks)
    ensures Generation(tasks, now) != {} ==> BlockedIds(CascadeStep(tasks, now)) < BlockedIds(tasks)
  {
    if Generation(tasks, now) != {} {
      var id :| id in Generation(tasks, now);
      assert id in BlockedIds(tasks) && id !in BlockedIds(CascadeStep(tasks, now));
    }
  }

  // ----- What a cascade leaves alone -----

  /** `after` differs from `t` at most by having been put out while it was blocked. */
  ghost predicate LeftOrPutOut(t: Task, after: Task) {
    || after == t
    || (&& t.status.Blocked?
        && after.status.Skipped?
        && after.status.cause != ExecutorDecision
        && after == t.(status := after.status, reason := after.reason, completedAt := after.completedAt))
  }

  lemma {:induction false} CascadeOnlyPutsOut(tasks: TaskMap, now: Moment)
    ensures Cascade(tasks, now).Keys == tasks.Keys
    ensures forall id :: id in tasks ==> LeftOrPutOut(tasks[id], Cascade(tasks, now)[id])
    ensures Generation(Cascade(tasks, now), now) == {}
    decreases BlockedIds(tasks)
  {
    if Generation(tasks, now) != {} {
      StepShrinksBlocked(tasks, now);
      var next := CascadeStep(tasks, now);
      CascadeOnlyPutsOut(next, now);
      forall id | id in tasks ensures LeftOrPutOut(tasks[id], Cascade(tasks, now)[id]) {
        assert LeftOrPutOut(next[id], Cascade(next, now)[id]);
      }
    }
  }

  /** The tasks the cascade puts out. */
  ghost function PutOutIds(tasks: TaskMap, now: Moment): set<Id> {
    CascadeOnlyPutsOut(tasks, now);
    set id | id in tasks && tasks[id].status.Blocked? && !Cascade(tasks, now)[id].status.Blocked?
  }

  // ----- The least fixpoint -----

  /**
   * `s` holds every blocked task with a dependency it cannot accept, counting the members of `s`
   * among the skipped ones.
   */
  ghost predicate ClosedUnderRefusal(tasks: TaskMap, now: Moment, s: set<Id>) {
    forall id, d :: id in BlockedIds(tasks) && d in tasks[id].dependsOn && d in tasks ==>
      (Refuses(tasks, tasks[id], d, now)
       || (d in s && tasks[d].status.Blocked? && !tasks[id].tolerance.allowsSkipped)) ==> id in s
  }

  lemma StepKeepsClosed(tasks: TaskMap, now: Moment, s: set<Id>)
    requires ClosedUnderRefusal(tasks, now, s)
    ensures Generation(tasks, now) <= s
    ensures ClosedUnderRefusal(CascadeStep(tasks, now), now, s)
  {
    forall id | id in Generation(tasks, now) ensures id in s {
      var d := BlameOf(tasks, id, now).value.dependency;
      assert Refuses(tasks, tasks[id], d, now);
    }
    var next := CascadeStep(tasks, now);
    forall id, d | id in BlockedIds(next) && d in next[id].dependsOn && d in next
                   && (Refuses(next, next[id], d, now)
                       || (d in s && next[d].status.Blocked? && !next[id].tolerance.allowsSkipped))
      ensures id in s
    {
      assert next[id] == tasks[id] && id in BlockedIds(tasks);
      if d !in Generation(tasks, now) {
        assert next[d] == tasks[d];
      }
    }
  }

  lemma {:induction false} PutOutIsLeast(tasks: TaskMap, now: Moment, s: set<Id>)
    requires ClosedUnderRefusal(tasks, now, s)
    ensures PutOutIds(tasks, now) <= s
    decreases BlockedIds(tasks)
  {
    if Generation(tasks, now) != {} {
      StepShrinksBlocked(tasks, now);
      StepKeepsClosed(tasks, now, s);
      var next := CascadeStep(tasks, now);
      PutOutIsLeast(next, now, s);
      forall id | id in PutOutIds(tasks, now) ensures id in s {
        if id !in Generation(tasks, now) {
          assert next[id] == tasks[id];
          assert id in PutOutIds(next, now);
        }
      }
    }
  }

  lemma RefusedIsInGeneration(tasks: TaskMap, id: Id, d: Id, now: Moment)
    requires id in tasks && tasks[id].status.Blocked? && d in tasks[id].dependsOn
    requires Refuses(tasks, tasks[id], d, now)
    ensures id in Generation(tasks, now)
  {
    assert BlameOf(tasks, id, now).Some?;
  }

  lemma NoRefusalLeft(tasks: TaskMap, id: Id, d: Id, now: Moment)
    requires id in tasks && tasks[id].status.Blocked? && d in tasks[id].dependsOn
    requires id !in Generation(tasks, now)
    ensures !Refuses(tasks, tasks[id], d, now)
  {
    assert BlameOf(tasks, id, now).None?;
  }

  lemma PutOutIsClosed(tasks: TaskMap, now: Moment)
    ensures ClosedUnderRefusal(tasks, now, PutOutIds(tasks, now))
  {
    CascadeOnlyPutsOut(tasks, now);
    var final, out := Cascade(tasks, now), PutOutIds(tasks, now);
    forall id, d | id in BlockedIds(tasks) && d in tasks[id].dependsOn && d in tasks
                   && (Refuses(tasks, tasks[id], d, now)
                       || (d in out && tasks[d].status.Blocked? && !tasks[id].tolerance.allowsSkipped))
      ensures id in out
    {
      assert LeftOrPutOut(tasks[id], final[id]) && LeftOrPutOut(tasks[d], final[d]);
      if id !in out {
        RefusedIsInGeneration(final, id, d, now);
        assert false;
      }
    }
  }

  /**
   * The cascade puts out exactly the least set of blocked tasks closed under "has a dependency it
   * cannot accept".
   */
  lemma CascadeIsLeastFixpoint(tasks: TaskMap, now: Moment)
    ensures ClosedUnderRefusal(tasks, now, PutOutIds(tasks, now))
    ensures forall s :: ClosedUnderRefusal(tasks, now, s) ==> PutOutIds(tasks, now) <= s
  {
    PutOutIsClosed(tasks, now);
    forall s | ClosedUnderRefusal(tasks, now, s) ensures PutOutIds(tasks, now) <= s {
      PutOutIsLeast(tasks, now, s);
    }
  }

  // ----- Causes -----

  /** `id` is put out by generation `k`, as the state before that generation judges it. */
  ghost predicate JudgedIn(tasks: TaskMap, now: Moment, id: Id, k: nat) {
    var before := Iterate(tasks, now, k);
    && id in Generation(before, now)
    && id in tasks && id in Cascade(tasks, now)
    && Cascade(tasks, now)[id] == PutOut(tasks[id], BlameOf(before, id, now).value, now)
  }

  lemma {:induction false} IterateKeepsKeys(tasks: TaskMap, now: Moment, k: nat)
    ensures Iterate(tasks, now, k).Keys == tasks.Keys
  {
    if k > 0 { IterateKeepsKeys(CascadeStep(tasks, now), now, k - 1); }
  }

  lemma FirstGenerationIsJudged(tasks: TaskMap, now: Moment, id: Id)
    requires id in Generation(tasks, now)
    ensures JudgedIn(tasks, now, id, 0)
  {
    StepShrinksBlocked(tasks, now);
    var next := CascadeStep(tasks, now);
    CascadeOnlyPutsOut(next, now);
    assert LeftOrPutOut(next[id], Cascade(next, now)[id]);
  }

  lemma LaterGenerationIsJudged(tasks: TaskMap, now: Moment, id: Id, k: nat)
    requires Generation(tasks, now) != {} && id in tasks && id !in Generation(tasks, now)
    requires JudgedIn(CascadeStep(tasks, now), now, id, k)
    ensures JudgedIn(tasks, now, id, k + 1)
  {
    assert CascadeStep(tasks, now)[id] == tasks[id];
    assert Iterate(tasks, now, k + 1) == Iterate(CascadeStep(tasks, now), now, k);
    assert Cascade(tasks, now) == Cascade(CascadeStep(tasks, now), now);
  }

  lemma PutOutByRest(tasks: TaskMap, now: Moment, id: Id)
    requires id in PutOutIds(tasks, now) && id !in Generation(tasks, now)
    ensures Generation(tasks, now) != {}
    ensures id in PutOutIds(CascadeStep(tasks, now), now)
  {
    assert CascadeStep(tasks, now)[id] == tasks[id];
  }

  lemma {:induction false} PutOutIsJudgedOnce(tasks: TaskMap, now: Moment, id: Id) returns (k: nat)
    requires id in PutOutIds(tasks, now)
    ensures JudgedIn(tasks, now, id, k)
    decreases BlockedIds(tasks)
  {
    if id in Generation(tasks, now) {
      k := 0;
      FirstGenerationIsJudged(tasks, now, id);
    } else {
      PutOutByRest(tasks, now, id);
      StepShrinksBlocked(tasks, now);
      var rest := PutOutIsJudgedOnce(CascadeStep(tasks, now), now, id);
      LaterGenerationIsJudged(tasks, now, id, rest);
      k := rest + 1;
    }
  }

  /**
   * The cause a task is left with is the strongest among the dependencies already out when its
   * generation is judged: a failure exactly when one of them carries a failure to it by then.
   */
  lemma CauseIsStrongestWhenJudged(tasks: TaskMap, now: Moment, id: Id) returns (k: nat)
    requires id in PutOutIds(tasks, now)
    ensures id in Generation(Iterate(tasks, now, k), now) && id in Cascade(tasks, now)
    ensures Cascade(tasks, now)[id].status ==
            Skipped(if exists d :: d in tasks[id].dependsOn && RefusesFailure(Iterate(tasks, now, k), tasks[id], d, now)
                    then FailedDependency else SkippedDependency)
  {
    k := PutOutIsJudgedOnce(tasks, now, id);
    var before := Iterate(tasks, now, k);
    BlockedIsUntouched(tasks, now, id, k);
    var blame := BlameOf(before, id, now).value;
    assert JudgeDependency(tasks[id], before[blame.dependency], now) == Unreachable(blame.cause);
  }

  lemma {:induction false} BlockedIsUntouched(tasks: TaskMap, now: Moment, id: Id, k: nat)
    requires id in Iterate(tasks, now, k) && Iterate(tasks, now, k)[id].status.Blocked?
    ensures id in tasks && tasks[id] == Iterate(tasks, now, k)[id]
  {
    if k > 0 { BlockedIsUntouched(CascadeStep(tasks, now), now, id, k - 1); }
  }
}
