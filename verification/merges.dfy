/**
 * The two merges a worker makes after losing a write: what a started task may rely on in the state
 * it is carried onto, and what carrying a result over changes.
 */
module Merges {
  import opened Base
  import opened Tasks
  import opened TaskLaws
  import opened Cascades
  import opened Settling
  import opened Jobs

  // ----- Carrying a start over -----

  /** The state a worker picks from: lifetimes failed, and what that implies applied if nothing was found. */
  ghost predicate IsPickedFrom(local: TaskMap, read: TaskMap, failedAt: Moment, now: Moment) {
    local == FailByLifetime(read, failedAt) || local == Derived(FailByLifetime(read, failedAt), now)
  }

  /**
   * What `stored` has kept of the state `read` the worker worked from: what had settled by `now`
   * stands, what the worker failed by lifetime at `failedAt` still runs under the same lifetime, and
   * what was blocked is still blocked or has been skipped.
   */
  ghost predicate StillStands(read: TaskMap, stored: TaskMap, failedAt: Moment, now: Moment) {
    forall d :: d in read ==>
      && d in stored
      && stored[d].dependsOn == read[d].dependsOn && stored[d].tolerance == read[d].tolerance
      && (read[d].status.Completed? ==> stored[d].status.Completed?)
      && (read[d].status.Skipped? ==> stored[d].status == read[d].status)
      && (IsTerminallyFailed(read[d], now) ==> IsTerminallyFailed(stored[d], now))
      && (CheckAvailability(read[d], failedAt).ExpiredPastLifetime? ==>
            stored[d].status.Started? && stored[d].lifetimeDeadlineAt == read[d].lifetimeDeadlineAt)
      && (read[d].status.Blocked? ==> stored[d].status.Blocked? || stored[d].status.Skipped?)
  }

  /** The readings of one start and of the merge that carries it over, in the order they are taken. */
  datatype Readings = Readings(failedAt: Moment, now: Moment, mergeFailedAt: Moment, mergeNow: Moment)

  ghost predicate InOrder(r: Readings) {
    r.failedAt <= r.now <= r.mergeFailedAt <= r.mergeNow
  }

  /** The stored state with lifetime failures and the cascade derived on it again. */
  function Rederived(stored: TaskMap, r: Readings): TaskMap {
    Cascade(FailByLifetime(stored, r.mergeFailedAt), r.mergeNow)
  }

  /** A dependency settled in the worker's copy before any cascade is settled alike on the other state. */
  lemma SettledIsRederived(read: TaskMap, stored: TaskMap, r: Readings, d: Id)
    requires InOrder(r) && StillStands(read, stored, r.failedAt, r.now) && d in read
    ensures d in Rederived(stored, r)
    ensures var before, after := FailByLifetime(read, r.failedAt)[d], Rederived(stored, r)[d];
            && (before.status.Completed? ==> after.status.Completed?)
            && (IsTerminallyFailed(before, r.now) ==> IsTerminallyFailed(after, r.mergeNow))
            && (before.status.Skipped? ==> after.status.Skipped?)
  {
    var failed := FailByLifetime(stored, r.mergeFailedAt);
    CascadeOnlyPutsOut(failed, r.mergeNow);
    assert LeftOrPutOut(failed[d], Rederived(stored, r)[d]);
  }

  lemma SkippedIsRefused(t: Task, d: Task, now: Moment)
    requires d.status.Skipped? && !t.tolerance.allowsSkipped
    ensures FailsIt(t, d, now) || PassesItBy(t, d)
  {
    JudgementLaw(t, d, now);
  }

  lemma RefusalOutlasts(t: Task, before: Task, after: Task, now: Moment, later: Moment)
    requires FailsIt(t, before, now) || PassesItBy(t, before)
    requires IsTerminallyFailed(before, now) ==> IsTerminallyFailed(after, later)
    requires before.status.Skipped? ==> after.status.Skipped?
    ensures FailsIt(t, after, later) || PassesItBy(t, after)
  {
    JudgementLaw(t, before, now);
    JudgementLaw(t, after, later);
  }

  /** What a task cannot accept in the worker's copy, it cannot accept there either. */
  lemma RefusalIsRederived(read: TaskMap, stored: TaskMap, r: Readings, t: Task, d: Id)
    requires InOrder(r) && StillStands(read, stored, r.failedAt, r.now) && d in read
    requires var local, final := FailByLifetime(read, r.failedAt), Rederived(stored, r);
             Refuses(local, t, d, r.now) || (d in final && final[d].status.Skipped? && !t.tolerance.allowsSkipped)
    ensures Refuses(Rederived(stored, r), t, d, r.mergeNow)
  {
    var local := FailByLifetime(read, r.failedAt);
    SettledIsRederived(read, stored, r, d);
    if Refuses(local, t, d, r.now) {
      RefusalOutlasts(t, local[d], Rederived(stored, r)[d], r.now, r.mergeNow);
    } else {
      SkippedIsRefused(t, Rederived(stored, r)[d], r.mergeNow);
    }
  }

  /** What the worker's cascade put out, the cascade on the other state leaves skipped too. */
  lemma PutOutIsRederived(read: TaskMap, stored: TaskMap, r: Readings)
    requires InOrder(r) && StillStands(read, stored, r.failedAt, r.now)
    ensures forall id :: id in PutOutIds(FailByLifetime(read, r.failedAt), r.now) ==>
              id in Rederived(stored, r) && Rederived(stored, r)[id].status.Skipped?
  {
    var local, failed, final := FailByLifetime(read, r.failedAt), FailByLifetime(stored, r.mergeFailedAt), Rederived(stored, r);
    CascadeOnlyPutsOut(failed, r.mergeNow);
    var skipped := set id | id in final && final[id].status.Skipped?;
    forall id, d | id in BlockedIds(local) && d in local[id].dependsOn && d in local
                   && (Refuses(local, local[id], d, r.now)
                       || (d in skipped && local[d].status.Blocked? && !local[id].tolerance.allowsSkipped))
      ensures id in skipped
    {
      assert LeftOrPutOut(failed[id], final[id]);
      if final[id].status.Blocked? {
        RefusalIsRederived(read, stored, r, final[id], d);
        NoRefusalLeft(final, id, d, r.mergeNow);
        assert false;
      }
    }
    assert ClosedUnderRefusal(local, r.now, skipped);
    PutOutIsLeast(local, r.now, skipped);
  }

  /** Accepted before anything was derived from the worker's copy. */
  lemma SettledIsAccepted(read: TaskMap, stored: TaskMap, r: Readings, t: Task, d: Id)
    requires InOrder(r) && StillStands(read, stored, r.failedAt, r.now)
    requires d in read && JudgeDependency(t, FailByLifetime(read, r.failedAt)[d], r.now).Unblocked?
    ensures d in Rederived(stored, r) && JudgeDependency(t, Rederived(stored, r)[d], r.mergeNow).Unblocked?
  {
    SettledIsRederived(read, stored, r, d);
  }

  /** Accepted because the worker's own cascade put it out. */
  lemma PutOutIsAccepted(read: TaskMap, stored: TaskMap, r: Readings, t: Task, d: Id)
    requires InOrder(r) && StillStands(read, stored, r.failedAt, r.now)
    requires d in PutOutIds(FailByLifetime(read, r.failedAt), r.now) && t.tolerance.allowsSkipped
    ensures d in Rederived(stored, r) && JudgeDependency(t, Rederived(stored, r)[d], r.mergeNow).Unblocked?
  {
    PutOutIsRederived(read, stored, r);
  }

  /** What a derived state shows accepted was accepted before, or put out on the way. */
  lemma AcceptedWhenDerived(failed: TaskMap, now: Moment, t: Task, d: Id)
    requires d in Derived(failed, now) && JudgeDependency(t, Derived(failed, now)[d], now).Unblocked?
    ensures d in failed
    ensures || JudgeDependency(t, failed[d], now).Unblocked?
            || (d in PutOutIds(failed, now) && t.tolerance.allowsSkipped)
  {
    CascadeOnlyPutsOut(failed, now);
    DerivingKeepsGraph(failed, now);
    assert LeftOrPutOut(failed[d], Cascade(failed, now)[d]);
  }

  lemma AcceptedIsRederived(read: TaskMap, stored: TaskMap, local: TaskMap, r: Readings, t: Task, d: Id)
    requires InOrder(r) && StillStands(read, stored, r.failedAt, r.now)
    requires IsPickedFrom(local, read, r.failedAt, r.now)
    requires d in local && JudgeDependency(t, local[d], r.now).Unblocked?
    ensures d in Rederived(stored, r)
    ensures JudgeDependency(t, Rederived(stored, r)[d], r.mergeNow).Unblocked?
  {
    var failed := FailByLifetime(read, r.failedAt);
    if local != failed {
      AcceptedWhenDerived(failed, r.now, t, d);
    }
    if JudgeDependency(t, failed[d], r.now).Unblocked? {
      SettledIsAccepted(read, stored, r, t, d);
    } else {
      PutOutIsAccepted(read, stored, r, t, d);
    }
  }

  /**
   * A start carried onto a newer stored state: every dependency of the started task is settled
   * there the way the task accepts, as it was in the copy that released it.
   */
  lemma MergedStartKeepsItsDependencies(
    read: TaskMap, local: TaskMap, stored: JobState, ours: JobState, worker: Id, id: Id, r: Readings)
    requires InOrder(r) && StillStands(read, stored.tasks, r.failedAt, r.now)
    requires IsPickedFrom(local, read, r.failedAt, r.now)
    requires id in local && id !in local[id].dependsOn && DependenciesSatisfied(local, local[id], r.now)
    requires id in ours.tasks && ours.tasks[id].dependsOn == local[id].dependsOn
    requires ours.tasks[id].tolerance == local[id].tolerance
    ensures var merged := MergePicked(stored, ours, worker, id, r.mergeFailedAt, r.mergeNow);
            merged.Ok? ==>
              && merged.value.tasks[id] == ours.tasks[id]
              && DependenciesSatisfied(merged.value.tasks, merged.value.tasks[id], r.mergeNow)
  {
    var merged := MergePicked(stored, ours, worker, id, r.mergeFailedAt, r.mergeNow);
    if merged.Ok? {
      var t := ours.tasks[id];
      forall d | d in t.dependsOn
        ensures d in merged.value.tasks && JudgeDependency(t, merged.value.tasks[d], r.mergeNow).Unblocked?
      {
        assert JudgeDependency(t, local[d], r.now) == JudgeDependency(local[id], local[d], r.now);
        AcceptedIsRederived(read, stored.tasks, local, r, t, d);
      }
    }
  }

  /** `d` is in the least set of blocked tasks closed under "has a dependency it cannot accept". */
  ghost predicate IsDoomed(tasks: TaskMap, now: Moment, d: Id) {
    forall s :: ClosedUnderRefusal(tasks, now, s) ==> d in s
  }

  lemma DoomedIsPutOut(tasks: TaskMap, now: Moment, d: Id)
    ensures IsDoomed(tasks, now, d) <==> d in PutOutIds(tasks, now)
  {
    CascadeIsLeastFixpoint(tasks, now);
  }

  /**
   * `t` may rely on `d` once the merge has failed lifetimes at `failedAt` and cascaded at `now`, read
   * off the stored state without a cascade: it completed; it failed for good or has outlived its
   * lifetime and `t` survives that; or it is skipped, or bound to be, and `t` survives that.
   */
  ghost predicate WillAccept(stored: TaskMap, t: Task, d: Id, failedAt: Moment, now: Moment) {
    && d in stored
    && (|| stored[d].status.Completed?
        || (t.tolerance.allowsFailed
            && (IsTerminallyFailed(stored[d], now) || CheckAvailability(stored[d], failedAt).ExpiredPastLifetime?))
        || (t.tolerance.allowsSkipped
            && (stored[d].status.Skipped? || IsDoomed(FailByLifetime(stored, failedAt), now, d))))
  }

  lemma {:induction false} AcceptanceIsForeseen(stored: TaskMap, t: Task, d: Id, failedAt: Moment, now: Moment)
    requires failedAt <= now
    ensures var cascaded := Cascade(FailByLifetime(stored, failedAt), now);
            (d in cascaded && JudgeDependency(t, cascaded[d], now).Unblocked?) <==> WillAccept(stored, t, d, failedAt, now)
  {
    var failed := FailByLifetime(stored, failedAt);
    DoomedIsPutOut(failed, now, d);
    CascadeOnlyPutsOut(failed, now);
    if d in stored {
      assert LeftOrPutOut(failed[d], Cascade(failed, now)[d]);
    }
  }

  /**
   * Exactly when a merged start finds its dependencies accepted: a condition on the stored state it
   * is merged into, whatever the copy it comes from looked like.
   */
  lemma MergedStartIsSatisfiedExactlyWhen(
    stored: JobState, ours: JobState, worker: Id, id: Id, now: Moment, later: Moment)
    requires now <= later
    requires MergePicked(stored, ours, worker, id, now, later).Ok? && id !in ours.tasks[id].dependsOn
    ensures var merged := MergePicked(stored, ours, worker, id, now, later).value.tasks;
            DependenciesSatisfied(merged, merged[id], later) <==>
            forall d :: d in ours.tasks[id].dependsOn ==> WillAccept(stored.tasks, ours.tasks[id], d, now, later)
  {
    var t := ours.tasks[id];
    var merged := MergePicked(stored, ours, worker, id, now, later).value.tasks;
    forall d | d in t.dependsOn
      ensures (d in merged && JudgeDependency(t, merged[d], later).Unblocked?) <==> WillAccept(stored.tasks, t, d, now, later)
    {
      AcceptanceIsForeseen(stored.tasks, t, d, now, later);
    }
  }

  /** A task the settling of a copy released has its dependencies satisfied in that copy. */
  lemma ReleasedIsSatisfied(tasks: TaskMap, now: Moment, id: Id)
    requires id in tasks && tasks[id].status.Blocked?
    requires id in Derived(tasks, now) && Derived(tasks, now)[id].status.Todo?
    ensures DependenciesSatisfied(Derived(tasks, now), Derived(tasks, now)[id], now)
  {
    CascadeOnlyPutsOut(tasks, now);
    var cascaded, derived := Cascade(tasks, now), Derived(tasks, now);
    assert DependenciesSatisfied(cascaded, cascaded[id], now);
    forall d | d in derived[id].dependsOn
      ensures d in derived && JudgeDependency(derived[id], derived[d], now).Unblocked?
    {
      assert JudgeDependency(cascaded[id], cascaded[d], now).Unblocked?;
    }
  }

  // ----- Carrying a result over -----

  /**
   * Merging a result leaves every other stored task alone exactly when the worker's copy agrees
   * with storage on the other tasks it owns there.
   */
  lemma ResultMergeChangesOnlyItsTask(stored: TaskMap, ours: TaskMap, worker: Id, id: Id)
    requires id in stored && id in ours && ours[id].owner == Some(worker)
    ensures MergeTasks(stored, ours, worker)[id] == ours[id]
    ensures (forall x :: x in stored && x != id ==>
               x in MergeTasks(stored, ours, worker) && MergeTasks(stored, ours, worker)[x] == stored[x])
            <==>
            (forall x :: x in ours && x in stored && x != id && ours[x].owner == Some(worker) ==> ours[x] == stored[x])
  {
    var merged := MergeTasks(stored, ours, worker);
    if x :| x in ours && x in stored && x != id && ours[x].owner == Some(worker) && ours[x] != stored[x] {
      assert merged[x] == ours[x];
    }
  }

  /**
   * Where storage has lost no task since `base` was read, the tasks a merge adds are those the
   * worker's copy gained since - the ones this execution created - and all of them are added.
   */
  lemma ResultMergeAddsOnlyCreatedTasks(base: TaskMap, stored: TaskMap, ours: TaskMap, worker: Id)
    requires base.Keys <= stored.Keys
    requires forall x :: x in ours && x !in base ==> ours[x].createdByWorker == worker && ours[x].owner.None?
    ensures MergeTasks(stored, ours, worker).Keys == stored.Keys + (ours.Keys - base.Keys)
    ensures forall x :: x in ours && x !in stored ==> MergeTasks(stored, ours, worker)[x] == ours[x]
  {
    var merged := MergeTasks(stored, ours, worker);
    forall x | x in stored.Keys + (ours.Keys - base.Keys) ensures x in merged {
      if x !in stored {
        assert IsCreatedNow(stored, x, ours[x], worker);
      }
    }
  }
}
