/**
 * Every run of one task's operations: what the attempt budget and the lifetime bound, however
 * starts, takeovers, refusals and resolutions interleave.
 */
module TaskRuns {
  import opened Base
  import opened Tasks

  datatype Call =
    | StartCall(worker: Id)
    | CompleteCall(output: string)
    | SkipCall(reason: Reason, cause: SkipCause)
    | FailCall(reason: Reason, retry: TaskRetry)
    | UnblockCall

  datatype Event = Event(call: Call, now: Moment)

  /** A task with what happened to it: fresh starts, takeovers, recorded failures, first start. */
  datatype History = History(
    task: Task,
    starts: nat,
    takeovers: nat,
    failures: nat,
    firstStart: Option<Moment>)

  function Perform(t: Task, e: Event): Result<Task> {
    match e.call
    case StartCall(worker) => Start(t, worker, e.now)
    case CompleteCall(output) => Complete(t, output, e.now)
    case SkipCall(reason, cause) => Skip(t, reason, cause, e.now)
    case FailCall(reason, retry) => Fail(t, reason, retry, e.now)
    case UnblockCall => Ok(Tasks.Unblock(t))
  }

  /** One call; a refused one leaves the task, and therefore its history, alone. */
  function Record(h: History, e: Event): History {
    match Perform(h.task, e)
    case Err(_) => h
    case Ok(t) =>
      match e.call
      case StartCall(_) =>
        if h.task.status.Started? then h.(task := t, takeovers := h.takeovers + 1)
        else h.(task := t, starts := h.starts + 1,
                firstStart := if h.firstStart.None? then Some(e.now) else h.firstStart)
      case FailCall(_, _) => h.(task := t, failures := h.failures + 1)
      case _ => h.(task := t)
  }

  function Run(t: Task, events: seq<Event>): History {
    if events == [] then History(t, 0, 0, 0, None)
    else Record(Run(t, events[..|events| - 1]), events[|events| - 1])
  }

  predicate Nondecreasing(events: seq<Event>) {
    forall i, j :: 0 <= i < j < |events| ==> events[i].now <= events[j].now
  }

  /** The current start is open, or it ended in a result or in a skip its executor decided. */
  predicate HasUnrefusedStart(t: Task) {
    t.status.Started? || t.status.Completed? || (t.status.Skipped? && t.startedAt.Some?)
  }

  predicate IsSettled(t: Task, now: Moment) {
    t.status.Completed? || t.status.Skipped? || IsTerminallyFailed(t, now)
  }

  /** What a run keeps. `clock` is the last reading. */
  ghost predicate Accounted(h: History, clock: Moment) {
    var t := h.task;
    && 0 < t.timeout && 0 < t.maxAttempts
    && h.starts == t.attempt <= t.maxAttempts
    && t.attempt == h.failures + (if HasUnrefusedStart(t) then 1 else 0)
    && (t.status.Todo? || t.status.Blocked? ==> t.startedAt.None?)
    && (t.status.Failed? ==> t.startedAt.Some?)
    && (t.startedAt.Some? <==> h.firstStart.Some?)
    && (t.startedAt.Some? <==> t.lifetimeDeadlineAt.Some?)
    && (t.startedAt.Some? <==> t.deadlineAt.Some?)
    && (t.startedAt.None? ==> h.takeovers == 0 && t.attempt == 0)
    && (t.startedAt.Some? ==>
          && t.lifetimeDeadlineAt.value == h.firstStart.value + t.maxLifetime
          && t.deadlineAt.value == Min(t.startedAt.value + t.timeout, t.lifetimeDeadlineAt.value)
          && t.startedAt.value <= clock
          && t.startedAt.value <= t.lifetimeDeadlineAt.value
          && h.takeovers * (t.timeout + 1) <= t.startedAt.value - h.firstStart.value)
  }

  lemma RecordKeepsAccount(h: History, e: Event, clock: Moment)
    requires Accounted(h, clock) && clock <= e.now
    ensures Accounted(Record(h, e), e.now)
  {
    if e.call.StartCall? && Perform(h.task, e).Ok? && h.task.status.Started? {
      // A takeover waits out the whole deadline, which was not yet capped by the lifetime.
      assert h.task.startedAt.value + h.task.timeout + 1 <= e.now;
      assert (h.takeovers + 1) * (h.task.timeout + 1)
          == h.takeovers * (h.task.timeout + 1) + (h.task.timeout + 1);
    }
  }

  ghost function ClockAfter(events: seq<Event>, dawn: Moment): Moment {
    if events == [] then dawn else events[|events| - 1].now
  }

  lemma {:induction false} RunKeepsAccount(t: Task, events: seq<Event>, dawn: Moment)
    requires Accounted(History(t, 0, 0, 0, None), dawn)
    requires Nondecreasing(events) && (events != [] ==> dawn <= events[0].now)
    ensures Accounted(Run(t, events), ClockAfter(events, dawn))
  {
    if events != [] {
      var before := events[..|events| - 1];
      RunKeepsAccount(t, before, dawn);
      RecordKeepsAccount(Run(t, before), events[|events| - 1], ClockAfter(before, dawn));
    }
  }

  /** The limits a definition declares are the ones its task carries to the end of any run. */
  lemma {:induction false} RunKeepsLimits(t: Task, events: seq<Event>)
    ensures var u := Run(t, events).task;
            && u.timeout == t.timeout && u.maxLifetime == t.maxLifetime
            && u.maxAttempts == t.maxAttempts && u.dependsOn == t.dependsOn && u.tolerance == t.tolerance
  {
    if events != [] {
      RunKeepsLimits(t, events[..|events| - 1]);
    }
  }

  lemma TakeoversFitLifetime(takeovers: nat, timeout: nat, maxLifetime: nat)
    requires 0 < takeovers && takeovers * (timeout + 1) <= maxLifetime
    ensures takeovers * timeout < maxLifetime
    ensures maxLifetime == DEFAULT_LIFETIME_MULTIPLIER * timeout ==> takeovers <= 4
  {
    assert takeovers * (timeout + 1) == takeovers * timeout + takeovers;
    if takeovers >= 5 {
      assert takeovers * timeout >= 5 * timeout;
    }
  }

  /**
   * The two budgets. Whatever the order of starts, takeovers and refusals, a task of a validated
   * definition gets at most `maxAttempts` fresh starts, and its takeovers fit strictly inside its
   * lifetime.
   */
  lemma {:induction false} BudgetsBoundEveryRun(def: TaskDefinition, maxInputSize: nat, worker: Id, creator: Option<Id>,
                             dependsOn: seq<Id>, events: seq<Event>)
    requires Validate(def, maxInputSize).Ok?
    requires Nondecreasing(events)
    ensures var h := Run(NewTask(worker, creator, def, dependsOn), events);
            && h.starts <= def.maxAttempts
            && (h.takeovers > 0 ==> h.takeovers * def.timeout < def.maxLifetime)
            && (def.maxLifetime == DEFAULT_LIFETIME_MULTIPLIER * def.timeout ==> h.takeovers <= 4)
  {
    var t := NewTask(worker, creator, def, dependsOn);
    var dawn := if events == [] then 0 else events[0].now;
    RunKeepsAccount(t, events, dawn);
    RunKeepsLimits(t, events);
    var h := Run(t, events);
    if h.takeovers > 0 {
      TakeoversFitLifetime(h.takeovers, def.timeout, def.maxLifetime);
    }
  }

  /**
   * The ledger. Attempts are the recorded failures, plus the one start that was not refused; they
   * stay within the budget; the deadline is the timeout of the latest start, cut off by the lifetime,
   * and the lifetime is counted from the first start.
   */
  lemma {:induction false} AttemptsAreFailuresPlusTheUnrefusedStart(
    def: TaskDefinition, maxInputSize: nat, worker: Id, creator: Option<Id>,
    dependsOn: seq<Id>, events: seq<Event>)
    requires Validate(def, maxInputSize).Ok?
    requires Nondecreasing(events)
    ensures var h := Run(NewTask(worker, creator, def, dependsOn), events);
            && h.task.attempt == h.failures + (if HasUnrefusedStart(h.task) then 1 else 0)
            && h.task.attempt <= def.maxAttempts
            && (h.task.deadlineAt.Some? ==>
                  h.task.lifetimeDeadlineAt.Some?
                  && h.task.startedAt.Some?
                  && h.task.deadlineAt.value == Min(h.task.startedAt.value + def.timeout, h.task.lifetimeDeadlineAt.value))
            && (h.task.lifetimeDeadlineAt.Some? ==>
                  h.firstStart.Some?
                  && h.task.lifetimeDeadlineAt.value == h.firstStart.value + def.maxLifetime)
  {
    var t := NewTask(worker, creator, def, dependsOn);
    RunKeepsAccount(t, events, if events == [] then 0 else events[0].now);
    RunKeepsLimits(t, events);
  }

  lemma CallMovesNothingForGood(h: History, e: Event)
    ensures h.task.lifetimeDeadlineAt.Some? ==> Record(h, e).task.lifetimeDeadlineAt == h.task.lifetimeDeadlineAt
    ensures IsSettled(h.task, e.now) ==> Record(h, e).task == h.task
  {
  }

  /**
   * What is set for good: once a run has started the task its lifetime deadline never moves, and
   * once the task is settled by the clock nothing that follows changes it at all.
   */
  lemma {:induction false} SettledTasksAndLifetimesStand(t: Task, events: seq<Event>, i: nat)
    requires i <= |events| && Nondecreasing(events)
    ensures var early, late := Run(t, events[..i]).task, Run(t, events).task;
            && (early.lifetimeDeadlineAt.Some? ==> late.lifetimeDeadlineAt == early.lifetimeDeadlineAt)
            && (i < |events| && IsSettled(early, events[i].now) ==> late == early)
    decreases |events|
  {
    if i == |events| {
      assert events[..i] == events;
    } else {
      var before, last := events[..|events| - 1], events[|events| - 1];
      assert before[..i] == events[..i];
      SettledTasksAndLifetimesStand(t, before, i);
      if IsSettled(Run(t, events[..i]).task, events[i].now) {
        assert Run(t, before).task == Run(t, events[..i]).task by {
          if i == |before| { assert before == events[..i]; }
        }
        assert events[i].now <= last.now;
      }
      CallMovesNothingForGood(Run(t, before), last);
    }
  }
}
