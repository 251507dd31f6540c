/**
 * A pool and its workers. Every worker is always in exactly one place, a job is claimed
 * exactly while one of them is starting a task of it, and the pool stops only with nothing in flight.
 */
module WorkerPools {
  import opened Base
  import opened Schedules
  import opened PollSchedulers

  /** A stored start whose execution has not begun. */
  datatype TaskToExecute = TaskToExecute(worker: Id, code: JobCode, task: Id)

  datatype PoolWait = Until(moment: Moment) | ForPoolEvent

  function WorkersOf(pending: seq<TaskToExecute>): seq<Id> {
    seq(|pending|, i requires 0 <= i < |pending| => pending[i].worker)
  }

  /** `places` hold every worker of `workers`, each exactly once. */
  ghost predicate EachOnce(workers: set<Id>, idle: seq<Id>, pending: seq<TaskToExecute>,
                           starting: set<Id>, executing: set<Id>) {
    multiset(idle) + multiset(WorkersOf(pending)) + multiset(starting) + multiset(executing) == multiset(workers)
  }

  /** Where the workers of a pool are, with the jobs they are there for. */
  datatype Places = Places(
    idle: seq<Id>,
    pending: seq<TaskToExecute>,
    starts: map<Id, JobCode>,
    executions: map<Id, JobCode>)

  /**
   * Each worker is in exactly one place, the jobs in task starts are exactly the claimed ones, each
   * claimed once, and every job is one of the schedule's.
   */
  ghost predicate InPlace(workers: set<Id>, p: Places, codes: set<JobCode>, claimed: set<JobCode>) {
    && EachOnce(workers, p.idle, p.pending, p.starts.Keys, p.executions.Keys)
    && p.starts.Values == claimed
    && (forall v, w :: v in p.starts && w in p.starts && v != w ==> p.starts[v] != p.starts[w])
    && (forall i :: 0 <= i < |p.pending| ==> p.pending[i].code in codes)
    && (forall w :: w in p.executions ==> p.executions[w] in codes)
  }

  /** The job was queued before and is claimed now. */
  ghost predicate IsTaken(before: JobMap, jobs: JobMap, code: JobCode) {
    && code in before && code in jobs && before[code].slot.Queued?
    && jobs[code] == before[code].(slot := Claimed(None))
  }

  /** Jobs were taken in the order they are due: nothing still queued comes before one of them. */
  ghost predicate TakenInOrder(before: JobMap, jobs: JobMap) {
    && jobs.Keys == before.Keys
    && (forall code :: code in jobs ==> jobs[code] == before[code] || IsTaken(before, jobs, code))
    && (forall code, other :: IsTaken(before, jobs, code) && other in jobs && jobs[other].slot.Queued? ==>
          Leq(Entry(before[code].slot.pollAt, code), Entry(jobs[other].slot.pollAt, other)))
  }

  /** The task starts there were, and one more for each job taken since. */
  ghost predicate StartsTaken(before: JobMap, jobs: JobMap, was: map<Id, JobCode>, starts: map<Id, JobCode>) {
    && (forall w :: w in was ==> w in starts && starts[w] == was[w])
    && (forall w :: w in starts && w !in was ==> IsTaken(before, jobs, starts[w]))
    && (forall code :: IsTaken(before, jobs, code) ==> code in starts.Values)
  }

  /** The two together: what the hand-out has done so far. */
  ghost predicate HandsOut(before: JobMap, jobs: JobMap, was: map<Id, JobCode>, starts: map<Id, JobCode>) {
    TakenInOrder(before, jobs) && StartsTaken(before, jobs, was, starts)
  }

  lemma OneMoreTaken(before: JobMap, jobs: JobMap, was: map<Id, JobCode>, starts: map<Id, JobCode>, code: JobCode, w: Id,
                     jobs': JobMap, starts': map<Id, JobCode>)
    requires HandsOut(before, jobs, was, starts) && IsEarliest(jobs, code) && w !in starts
    requires jobs' == jobs[code := jobs[code].(slot := Claimed(None))] && starts' == starts[w := code]
    ensures HandsOut(before, jobs', was, starts')
  {
    assert jobs[code] == before[code];
    ValuesAfterInsert(starts, w, code);
    forall c ensures IsTaken(before, jobs', c) <==> c == code || IsTaken(before, jobs, c) {
    }
  }

  /** The executions there were, and one more for each of `sent`, under its own job. */
  ghost predicate AreSent(was: map<Id, JobCode>, sent: seq<TaskToExecute>, executions: map<Id, JobCode>) {
    && (forall w :: w in was ==> w in executions && executions[w] == was[w])
    && (forall i :: 0 <= i < |sent| ==> sent[i].worker in executions && executions[sent[i].worker] == sent[i].code)
    && (forall w :: w in executions ==> w in was || exists i :: 0 <= i < |sent| && sent[i].worker == w)
  }

  lemma OneMoreSent(was: map<Id, JobCode>, sent: seq<TaskToExecute>, executions: map<Id, JobCode>, next: TaskToExecute)
    requires AreSent(was, sent, executions) && next.worker !in executions
    ensures AreSent(was, sent + [next], executions[next.worker := next.code])
  {
    var longer, after := sent + [next], executions[next.worker := next.code];
    forall w | w in after ensures w in was || exists i :: 0 <= i < |longer| && longer[i].worker == w {
      if w == next.worker {
        assert longer[|sent|].worker == w;
      } else if w !in was {
        var i :| 0 <= i < |sent| && sent[i].worker == w;
        assert longer[i].worker == w;
      }
    }
  }

  /** The readings one hand-out takes, one per look: a clock that does not go back. */
  type Clock = nat -> Moment

  ghost predicate IsForward(clock: Clock) {
    forall i: nat, j: nat :: i <= j ==> clock(i) <= clock(j)
  }

  /** Nobody waits for a worker: every one is busy, or every queued job is due only after `now`. */
  ghost predicate NoneIsKept(idle: seq<Id>, jobs: JobMap, now: Moment) {
    idle != [] ==> forall code :: code in jobs && jobs[code].slot.Queued? ==> now < jobs[code].slot.pollAt
  }

  /** A pool as it stands: where its workers are, and its schedule. */
  datatype PoolState = PoolState(places: Places, jobs: JobMap)

  /**
   * One wake-up: every pending start is executed under its job, and the jobs due when the hand-out
   * began are given to idle workers in order, until one or the other runs out.
   */
  ghost predicate WakesUp(before: PoolState, after: PoolState, clock: Clock) {
    && after.places.pending == []
    && AreSent(before.places.executions, before.places.pending, after.places.executions)
    && HandsOut(before.jobs, after.jobs, before.places.starts, after.places.starts)
    && NoneIsKept(after.places.idle, after.jobs, clock(0))
  }

  /** The start of a task ended: the claim is given back, and the worker has a task to execute or is free. */
  ghost predicate EndsStart(c: PollConfig, before: PoolState, after: PoolState, w: Id, started: Option<Id>, end: End) {
    && w in before.places.starts && before.places.starts[w] in before.jobs
    && var code := before.places.starts[w];
       && after.places == AfterReport(before.places, w, started)
       && Release(c, before.jobs[code], end.progress, end.reading).Some?
       && after.jobs == before.jobs[code := Release(c, before.jobs[code], end.progress, end.reading).value]
  }

  /** An execution ended: that is recorded on its job, and the worker is free. */
  ghost predicate EndsExecution(c: PollConfig, before: PoolState, after: PoolState, w: Id, end: End) {
    && w in before.places.executions && before.places.executions[w] in before.jobs
    && var code := before.places.executions[w];
       && after.places == before.places.(executions := before.places.executions - {w}, idle := before.places.idle + [w])
       && after.jobs == before.jobs[code := Reschedule(c, before.jobs[code], end.progress, end.reading)]
  }

  /** The pool takes in one report. */
  ghost predicate Reports(c: PollConfig, before: PoolState, after: PoolState) {
    || (exists w, started, end :: EndsStart(c, before, after, w, started, end))
    || (exists w, end :: EndsExecution(c, before, after, w, end))
  }

  /** What a pool went through: its wake-ups, each with what it found and what it left. */
  datatype WakeUp = WakeUp(found: PoolState, left: PoolState)

  ghost predicate Follows(c: PollConfig, before: PoolState, after: PoolState) {
    after == before || Reports(c, before, after)
  }

  lemma StartReports(c: PollConfig, before: PoolState, after: PoolState, w: Id, started: Option<Id>, end: End)
    requires EndsStart(c, before, after, w, started, end)
    ensures Follows(c, before, after)
  {
  }

  lemma ExecutionReports(c: PollConfig, before: PoolState, after: PoolState, w: Id, end: End)
    requires EndsExecution(c, before, after, w, end)
    ensures Follows(c, before, after)
  {
  }

  ghost predicate IsWakeUp(clocks: seq<Clock>, wakes: seq<WakeUp>, i: nat)
    requires i < |wakes| <= |clocks|
  {
    WakesUp(wakes[i].found, wakes[i].left, clocks[i])
  }

  /** The wake-up finds what the one before it left, or that with one report taken in. */
  ghost predicate IsLinked(c: PollConfig, start: PoolState, wakes: seq<WakeUp>, i: nat)
    requires i < |wakes|
  {
    Follows(c, if i == 0 then start else wakes[i - 1].left, wakes[i].found)
  }

  /** Wake-ups one after the other, from `start` to `now`. */
  ghost predicate IsPoolRun(c: PollConfig, clocks: seq<Clock>, start: PoolState, wakes: seq<WakeUp>, now: PoolState) {
    && |wakes| <= |clocks|
    && (forall i :: 0 <= i < |wakes| ==> IsWakeUp(clocks, wakes, i))
    && (forall i :: 0 <= i < |wakes| ==> IsLinked(c, start, wakes, i))
    && Follows(c, if wakes == [] then start else wakes[|wakes| - 1].left, now)
  }

  lemma OneMoreWakeUp(c: PollConfig, clocks: seq<Clock>, start: PoolState, wakes: seq<WakeUp>, found: PoolState,
                      left: PoolState, now: PoolState)
    requires IsPoolRun(c, clocks, start, wakes, found) && |wakes| < |clocks|
    requires WakesUp(found, left, clocks[|wakes|]) && Follows(c, left, now)
    ensures IsPoolRun(c, clocks, start, wakes + [WakeUp(found, left)], now)
  {
    var longer := wakes + [WakeUp(found, left)];
    forall i | 0 <= i < |longer| ensures IsWakeUp(clocks, longer, i) && IsLinked(c, start, longer, i) {
      if i < |wakes| {
        assert IsWakeUp(clocks, wakes, i) && IsLinked(c, start, wakes, i);
      }
    }
  }

  lemma OneMoreOf(s: seq<TaskToExecute>, k: nat)
    requires k < |s|
    ensures s[k..][0] == s[k] && s[k..][1..] == s[k + 1..] && s[..k + 1] == s[..k] + [s[k]]
  {
  }

  class WorkerPool {
    const scheduler: PollScheduler
    ghost const workers: set<Id>
    var idle: seq<Id>
    var tasksToExecute: seq<TaskToExecute>
    /** The worker of every task start in flight, with the job it holds the claim of. */
    var taskStarts: map<Id, JobCode>
    /** The worker of every execution in flight, with the job of its task. */
    var executions: map<Id, JobCode>

    ghost function View(): Places
      reads this
    {
      Places(idle, tasksToExecute, taskStarts, executions)
    }

    ghost function Snapshot(): PoolState
      reads this, scheduler
    {
      PoolState(View(), scheduler.jobs)
    }

    ghost predicate Valid()
      reads this, scheduler
    {
      && scheduler.Valid()
      && InPlace(workers, View(), scheduler.jobs.Keys, scheduler.outstanding)
    }

    constructor (scheduler: PollScheduler, idle: seq<Id>)
      requires scheduler.Valid() && scheduler.outstanding == {}
      requires forall i, j :: 0 <= i < j < |idle| ==> idle[i] != idle[j]
      ensures Valid() && fresh(this) && this.scheduler == scheduler && this.idle == idle
      ensures taskStarts == map[] && executions == map[] && tasksToExecute == []
    {
      this.scheduler, this.idle := scheduler, idle;
      workers := set w | w in idle;
      tasksToExecute, taskStarts, executions := [], map[], map[];
      new;
      DistinctIsSet(idle);
    }

    /**
     * Gives jobs whose moment has come to idle workers, in order, as long as there are both. With a
     * worker to spare it answers with the moment the next queued job comes up.
     */
    method SpawnTaskStarts(clock: Clock) returns (wait: PoolWait)
      requires Valid() && IsForward(clock)
      modifies this`idle, this`taskStarts, scheduler
      ensures Valid() && scheduler.jobs.Keys == old(scheduler.jobs.Keys)
      ensures HandsOut(old(scheduler.jobs), scheduler.jobs, old(taskStarts), taskStarts)
      ensures wait.Until? ==>
                && idle != []
                && exists code :: IsEarliest(scheduler.jobs, code) && scheduler.jobs[code].slot.pollAt == wait.moment
      ensures wait.ForPoolEvent? ==>
                idle == [] || forall code :: code in scheduler.jobs ==> !scheduler.jobs[code].slot.Queued?
      ensures NoneIsKept(idle, scheduler.jobs, clock(0))
    {
      var looks := 0;
      while idle != []
        invariant Valid() && scheduler.jobs.Keys == old(scheduler.jobs.Keys)
        invariant HandsOut(old(scheduler.jobs), scheduler.jobs, old(taskStarts), taskStarts)
        decreases |idle|
      {
        ghost var jobs, starts, worker := scheduler.jobs, taskStarts, idle[|idle| - 1];
        var claim, pause := TrySpawn(clock(looks));
        looks := looks + 1;
        if claim.None? {
          return pause;
        }
        OneMoreTaken(old(scheduler.jobs), jobs, old(taskStarts), starts, claim.value, worker, scheduler.jobs, taskStarts);
      }
      return ForPoolEvent;
    }

    /** Sends the last idle worker to start a task of the next due job, if there is one. */
    method TrySpawn(now: Moment) returns (claim: Option<JobCode>, wait: PoolWait)
      requires Valid() && idle != []
      modifies this`idle, this`taskStarts, scheduler
      ensures Valid() && scheduler.jobs.Keys == old(scheduler.jobs.Keys)
      ensures claim.Some? ==>
                && IsEarliest(old(scheduler.jobs), claim.value) && old(scheduler.jobs)[claim.value].slot.pollAt <= now
                && scheduler.jobs == old(scheduler.jobs)[claim.value := old(scheduler.jobs)[claim.value].(slot := Claimed(None))]
                && old(idle)[|old(idle)| - 1] !in old(taskStarts)
                && idle == old(idle)[..|old(idle)| - 1] && taskStarts == old(taskStarts)[old(idle)[|old(idle)| - 1] := claim.value]
      ensures claim.None? ==> scheduler.jobs == old(scheduler.jobs) && idle == old(idle) && taskStarts == old(taskStarts)
      ensures claim.None? ==> NoneIsKept(idle, scheduler.jobs, now)
      ensures claim.None? && wait.Until? ==>
                exists code :: IsEarliest(scheduler.jobs, code) && scheduler.jobs[code].slot.pollAt == wait.moment
      ensures claim.None? && wait.ForPoolEvent? ==> forall code :: code in scheduler.jobs ==> !scheduler.jobs[code].slot.Queued?
    {
      claim, wait := None, ForPoolEvent;
      var worker := idle[|idle| - 1];
      ghost var before, claimed := View(), scheduler.outstanding;
      var attempt := scheduler.TryClaimDueJob(now);
      match attempt.value {
        case WaitUntil(moment) =>
          wait := Until(moment);
        case WaitForPoolEvent =>
        case ClaimedJob(code) =>
          SpawningKeepsPlaces(workers, before, scheduler.jobs.Keys, claimed, code);
          claim := Some(code);
          idle := idle[..|idle| - 1];
          taskStarts := taskStarts[worker := code];
          assert View() == before.(idle := idle, starts := taskStarts);
      }
    }

    /** Sends every worker with a stored start on to execute it, under the job it started it for. */
    method StartExecutions()
      requires Valid()
      modifies this`tasksToExecute, this`executions
      ensures Valid() && tasksToExecute == []
      ensures AreSent(old(executions), old(tasksToExecute), executions)
    {
      ghost var pending, k := tasksToExecute, 0;
      while tasksToExecute != []
        invariant Valid() && k <= |pending| && tasksToExecute == pending[k..]
        invariant AreSent(old(executions), pending[..k], executions)
        decreases |tasksToExecute|
      {
        OneMoreOf(pending, k);
        PendingIsNotExecuting(workers, View(), scheduler.jobs.Keys, scheduler.outstanding);
        OneMoreSent(old(executions), pending[..k], executions, pending[k]);
        StartNext();
        k := k + 1;
      }
      assert pending[..k] == pending;
    }

    /** The first worker with a stored start begins to execute it. */
    method StartNext()
      requires Valid() && tasksToExecute != []
      modifies this`tasksToExecute, this`executions
      ensures Valid() && tasksToExecute == old(tasksToExecute)[1..]
      ensures executions == old(executions)[old(tasksToExecute)[0].worker := old(tasksToExecute)[0].code]
    {
      var next := tasksToExecute[0];
      ExecutingKeepsPlaces(workers, View(), scheduler.jobs.Keys, scheduler.outstanding);
      tasksToExecute := tasksToExecute[1..];
      executions := executions[next.worker := next.code];
    }

    /** A finished task start gives its claim back; the schedule never refuses it. */
    method CloseTaskStart(worker: Id, progress: Progress, started: Option<Id>, reading: Reading)
      requires Valid() && worker in taskStarts
      modifies this`idle, this`tasksToExecute, this`taskStarts, scheduler
      ensures Valid() && scheduler.jobs.Keys == old(scheduler.jobs.Keys)
      ensures |taskStarts.Keys| < old(|taskStarts.Keys|)
      ensures scheduler.outstanding == old(scheduler.outstanding) - {old(taskStarts)[worker]}
      ensures View() == AfterReport(old(View()), worker, started)
      ensures taskStarts == old(taskStarts) - {worker}
      ensures started == None ==> idle == old(idle) + [worker] && tasksToExecute == old(tasksToExecute)
      ensures started.Some? ==>
                && idle == old(idle)
                && tasksToExecute == old(tasksToExecute) + [TaskToExecute(worker, old(taskStarts)[worker], started.value)]
      ensures EndsStart(scheduler.config, old(Snapshot()), Snapshot(), worker, started, End(progress, reading))
    {
      var code := taskStarts[worker];
      ghost var after := AfterReport(View(), worker, started);
      ReportingKeepsPlaces(workers, View(), scheduler.jobs.Keys, scheduler.outstanding, worker, started);
      RemovedIsFewer(taskStarts, worker);
      var released := scheduler.ReleaseJob(code, progress, reading);
      taskStarts := taskStarts - {worker};
      if started.Some? {
        tasksToExecute := tasksToExecute + [TaskToExecute(worker, code, started.value)];
      } else {
        idle := idle + [worker];
      }
      assert View() == after;
    }

    /** A finished execution moves its job's poll and frees its worker. */
    method CloseExecution(worker: Id, progress: Progress, reading: Reading)
      requires Valid() && worker in executions
      modifies this`idle, this`executions, scheduler
      ensures Valid() && scheduler.jobs.Keys == old(scheduler.jobs.Keys)
      ensures executions == old(executions) - {worker} && |executions.Keys| < old(|executions.Keys|)
      ensures idle == old(idle) + [worker]
      ensures scheduler.outstanding == old(scheduler.outstanding)
      ensures EndsExecution(scheduler.config, old(Snapshot()), Snapshot(), worker, End(progress, reading))
    {
      var code := executions[worker];
      var rescheduled := scheduler.RescheduleJob(code, progress, reading);
      FreeingKeepsPlaces(workers, View(), scheduler.jobs.Keys, scheduler.outstanding, worker);
      RemovedIsFewer(executions, worker);
      executions, idle := executions - {worker}, idle + [worker];
    }

    /** One wake-up: everything pending is executed, then everything due handed out. */
    method WakeAndSpawn(clock: Clock)
      requires Valid() && IsForward(clock)
      modifies this`idle, this`tasksToExecute, this`taskStarts, this`executions, scheduler
      ensures Valid() && scheduler.jobs.Keys == old(scheduler.jobs.Keys)
      ensures WakesUp(old(Snapshot()), Snapshot(), clock)
    {
      StartExecutions();
      var wait := SpawnTaskStarts(clock);
    }

    /**
     * Runs through the wake-ups there are before the shutdown, then waits for everything in flight.
     * Which of the finished task starts and executions reports next is arbitrary.
     */
    method Run(clocks: seq<Clock>) returns (ghost wakes: seq<WakeUp>)
      requires Valid() && forall i :: 0 <= i < |clocks| ==> IsForward(clocks[i])
      modifies this, scheduler
      ensures taskStarts == map[] && executions == map[] && tasksToExecute == []
      ensures scheduler.Valid() && scheduler.outstanding == {}
      ensures |wakes| == |clocks|
      ensures exists last :: IsPoolRun(scheduler.config, clocks, old(Snapshot()), wakes, last)
    {
      wakes := [];
      ghost var start := Snapshot();
      for i := 0 to |clocks|
        invariant Valid() && |wakes| == i
        invariant IsPoolRun(scheduler.config, clocks, start, wakes, Snapshot())
      {
        ghost var found := Snapshot();
        WakeAndSpawn(clocks[i]);
        ghost var left := Snapshot();
        // The timer may wake the pool before anything in flight ends.
        var isWokenByEnd: bool := *;
        if isWokenByEnd {
          CloseOne();
        }
        OneMoreWakeUp(scheduler.config, clocks, start, wakes, found, left, Snapshot());
        wakes := wakes + [WakeUp(found, left)];
      }
      while taskStarts != map[] || executions != map[]
        invariant Valid()
        decreases |taskStarts.Keys| + |executions.Keys|
      {
        CloseOne();
      }
      tasksToExecute := [];
    }

    /** The next report, if anything is in flight. */
    method CloseOne()
      requires Valid()
      modifies this`idle, this`tasksToExecute, this`taskStarts, this`executions, scheduler
      ensures Valid() && Follows(scheduler.config, old(Snapshot()), Snapshot())
      ensures old(taskStarts != map[] || executions != map[]) ==>
                |taskStarts.Keys| + |executions.Keys| < old(|taskStarts.Keys| + |executions.Keys|)
    {
      var progress: Progress, started: Option<Id>, reading: Reading := *, *, *;
      var startFirst: bool := *;
      ghost var before, end := Snapshot(), End(progress, reading);
      if taskStarts != map[] && (startFirst || executions == map[]) {
        var worker :| worker in taskStarts.Keys;
        CloseTaskStart(worker, progress, started, reading);
        StartReports(scheduler.config, before, Snapshot(), worker, started, end);
      } else if executions != map[] {
        var worker :| worker in executions.Keys;
        CloseExecution(worker, progress, reading);
        ExecutionReports(scheduler.config, before, Snapshot(), worker, end);
      }
    }
  }

  // ----- Where a worker goes -----

  lemma {:induction false} DistinctIsSet(s: seq<Id>)
    requires forall i, j :: 0 <= i < j < |s| ==> s[i] != s[j]
    ensures multiset(s) == multiset(set w | w in s)
  {
    if s != [] {
      var init, last := s[..|s| - 1], s[|s| - 1];
      assert s == init + [last];
      DistinctIsSet(init);
      assert (set w | w in s) == (set w | w in init) + {last};
    }
  }

  /** The last free worker is in no other place, so it can be put among the starting ones. */
  lemma SpawningKeepsPlaces(workers: set<Id>, p: Places, codes: set<JobCode>, claimed: set<JobCode>, code: JobCode)
    requires InPlace(workers, p, codes, claimed) && p.idle != [] && code !in claimed
    ensures p.idle[|p.idle| - 1] !in p.starts
    ensures var w := p.idle[|p.idle| - 1];
            InPlace(workers, p.(idle := p.idle[..|p.idle| - 1], starts := p.starts[w := code]), codes, claimed + {code})
  {
    var w := p.idle[|p.idle| - 1];
    assert p.idle == p.idle[..|p.idle| - 1] + [w];
    assert multiset(workers)[w] <= 1;
    assert w !in p.starts;
    assert p.starts[w := code].Keys == p.starts.Keys + {w};
    ValuesAfterInsert(p.starts, w, code);
  }

  lemma PendingIsNotExecuting(workers: set<Id>, p: Places, codes: set<JobCode>, claimed: set<JobCode>)
    requires InPlace(workers, p, codes, claimed) && p.pending != []
    ensures p.pending[0].worker !in p.executions
  {
    assert WorkersOf(p.pending)[0] == p.pending[0].worker;
    assert multiset(workers)[p.pending[0].worker] <= 1;
  }

  lemma ExecutingKeepsPlaces(workers: set<Id>, p: Places, codes: set<JobCode>, claimed: set<JobCode>)
    requires InPlace(workers, p, codes, claimed) && p.pending != []
    ensures var next := p.pending[0];
            InPlace(workers, p.(pending := p.pending[1..], executions := p.executions[next.worker := next.code]), codes, claimed)
  {
    var next := p.pending[0];
    assert WorkersOf(p.pending) == [next.worker] + WorkersOf(p.pending[1..]);
    assert multiset(workers)[next.worker] <= 1;
    assert p.executions[next.worker := next.code].Keys == p.executions.Keys + {next.worker};
  }

  /** A worker whose start was written waits to execute it; one without a task is free again. */
  ghost function AfterReport(p: Places, w: Id, started: Option<Id>): Places
    requires w in p.starts
  {
    var left := p.(starts := p.starts - {w});
    if started.None? then left.(idle := p.idle + [w])
    else left.(pending := p.pending + [TaskToExecute(w, p.starts[w], started.value)])
  }

  lemma ReportingKeepsPlaces(workers: set<Id>, p: Places, codes: set<JobCode>, claimed: set<JobCode>, w: Id, started: Option<Id>)
    requires InPlace(workers, p, codes, claimed) && w in p.starts && claimed <= codes
    ensures InPlace(workers, AfterReport(p, w, started), codes, claimed - {p.starts[w]})
  {
    if started.Some? {
      assert WorkersOf(p.pending + [TaskToExecute(w, p.starts[w], started.value)]) == WorkersOf(p.pending) + [w];
    }
    assert (p.starts - {w}).Keys == p.starts.Keys - {w};
    assert multiset(p.starts.Keys - {w}) == multiset(p.starts.Keys) - multiset{w};
    ValuesAfterRemove(p.starts, w);
  }

  lemma FreeingKeepsPlaces(workers: set<Id>, p: Places, codes: set<JobCode>, claimed: set<JobCode>, w: Id)
    requires InPlace(workers, p, codes, claimed) && w in p.executions
    ensures InPlace(workers, p.(idle := p.idle + [w], executions := p.executions - {w}), codes, claimed)
  {
    assert (p.executions - {w}).Keys == p.executions.Keys - {w};
    assert multiset(p.executions.Keys - {w}) == multiset(p.executions.Keys) - multiset{w};
  }

  lemma RemovedIsFewer(m: map<Id, JobCode>, w: Id)
    requires w in m
    ensures |(m - {w}).Keys| < |m.Keys|
  {
    assert (m - {w}).Keys == m.Keys - {w};
  }

  lemma ValuesAfterInsert(m: map<Id, JobCode>, w: Id, code: JobCode)
    requires w !in m
    ensures m[w := code].Values == m.Values + {code}
  {
    assert m[w := code][w] == code;
    forall x | x in m.Values ensures x in m[w := code].Values {
      var v :| v in m && m[v] == x;
      assert m[w := code][v] == x;
    }
  }

  lemma ValuesAfterRemove(m: map<Id, JobCode>, w: Id)
    requires w in m && forall v, u :: v in m && u in m && v != u ==> m[v] != m[u]
    ensures (m - {w}).Values == m.Values - {m[w]}
  {
    forall x | x in m.Values - {m[w]} ensures x in (m - {w}).Values {
      var v :| v in m && m[v] == x;
      assert (m - {w})[v] == x;
    }
  }
}
