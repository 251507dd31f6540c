/**
 * The scheduler one pool owns: a map of jobs and an ordered queue that indexes the queued ones.
 * The queue is an index and nothing more, so a claim is the least due job of the whole map.
 */
module PollSchedulers {
  import opened Base
  import opened Schedules
  import opened ScheduleLaws

  type JobMap = map<JobCode, JobPoll>

  /** A queued job under the moment it is polled at. */
  datatype Entry = Entry(pollAt: Moment, code: JobCode)

  datatype ClaimAttempt = ClaimedJob(code: JobCode) | WaitUntil(moment: Moment) | WaitForPoolEvent

  datatype ScheduleResult<+T> = Done(value: T) | UnknownJob(code: JobCode) | NotClaimed(code: JobCode)

  predicate Leq(a: Entry, b: Entry) {
    a.pollAt < b.pollAt || (a.pollAt == b.pollAt && a.code <= b.code)
  }

  predicate IsQueued(jobs: JobMap, e: Entry) {
    e.code in jobs && jobs[e.code].slot == Queued(e.pollAt)
  }

  /** The queue is the set of the queued jobs under their poll moments. */
  ghost predicate Indexes(queue: set<Entry>, jobs: JobMap) {
    forall e :: e in queue <==> IsQueued(jobs, e)
  }

  ghost function ClaimedCodes(jobs: JobMap): set<JobCode> {
    set code | code in jobs && jobs[code].slot.Claimed?
  }

  ghost predicate IsEarliest(jobs: JobMap, code: JobCode) {
    && code in jobs && jobs[code].slot.Queued?
    && (forall other :: other in jobs && jobs[other].slot.Queued? ==>
          Leq(Entry(jobs[code].slot.pollAt, code), Entry(jobs[other].slot.pollAt, other)))
  }

  lemma {:induction false} LeastEntryExists(queue: set<Entry>) returns (least: Entry)
    requires queue != {}
    ensures least in queue && forall e :: e in queue ==> Leq(least, e)
  {
    var e :| e in queue;
    if queue == {e} {
      least := e;
    } else {
      var rest := LeastEntryExists(queue - {e});
      least := if Leq(e, rest) then e else rest;
      forall o | o in queue ensures Leq(least, o) {
        assert o == e || o in queue - {e};
      }
    }
  }

  lemma LeastEntryIsEarliest(queue: set<Entry>, jobs: JobMap, e: Entry)
    requires Indexes(queue, jobs) && e in queue && forall o :: o in queue ==> Leq(e, o)
    ensures IsQueued(jobs, e) && IsEarliest(jobs, e.code)
  {
    forall other | other in jobs && jobs[other].slot.Queued?
      ensures Leq(e, Entry(jobs[other].slot.pollAt, other))
    {
      assert IsQueued(jobs, Entry(jobs[other].slot.pollAt, other));
    }
  }

  lemma NothingQueued(queue: set<Entry>, jobs: JobMap)
    requires Indexes(queue, jobs) && queue == {}
    ensures forall code :: code in jobs ==> !jobs[code].slot.Queued?
  {
    forall code | code in jobs && jobs[code].slot.Queued? ensures false {
      assert IsQueued(jobs, Entry(jobs[code].slot.pollAt, code));
    }
  }

  class PollScheduler {
    const config: PollConfig
    var jobs: JobMap
    var dueQueue: set<Entry>
    /** The claims handed out and not given back. */
    ghost var outstanding: set<JobCode>

    ghost predicate Valid()
      reads this
    {
      && IsPollable(config)
      && Indexes(dueQueue, jobs)
      && outstanding == ClaimedCodes(jobs)
      && (forall code :: code in jobs ==> config.pollInterval <= jobs[code].interval <= Ceiling(config))
    }

    constructor (codes: set<JobCode>, config: PollConfig, now: Moment)
      requires IsPollable(config)
      ensures Valid() && this.config == config && outstanding == {}
      ensures jobs == map code | code in codes :: JobPoll(config.pollInterval, Queued(now))
    {
      this.config := config;
      jobs := map code | code in codes :: JobPoll(config.pollInterval, Queued(now));
      dueQueue := set code | code in codes :: Entry(now, code);
      outstanding := {};
    }

    /** One job gets a new state, and the queue follows it. */
    method TransitionJob(code: JobCode, job: JobPoll)
      requires code in jobs
      requires forall e :: e in dueQueue ==> IsQueued(jobs, e)
      requires forall e :: e !in dueQueue && IsQueued(jobs, e) ==> e.code == code && jobs[code].slot != job.slot
      modifies this`jobs, this`dueQueue
      ensures jobs == old(jobs)[code := job] && Indexes(dueQueue, jobs)
    {
      var before := jobs[code].slot;
      jobs := jobs[code := job];
      if before.Queued? && job.slot.Queued? && before.pollAt == job.slot.pollAt {
        return;
      }
      if before.Queued? {
        dueQueue := dueQueue - {Entry(before.pollAt, code)};
      }
      if job.slot.Queued? {
        dueQueue := dueQueue + {Entry(job.slot.pollAt, code)};
      }
    }

    /**
     * A claim on the least entry whose moment has come, or the moment to wait for. Every entry it
     * meets belongs to a scheduled job.
     */
    method TryClaimDueJob(now: Moment) returns (r: ScheduleResult<ClaimAttempt>)
      requires Valid()
      modifies this
      ensures Valid() && r.Done? && jobs.Keys == old(jobs.Keys)
      ensures r.value.ClaimedJob? ==>
                var code := r.value.code;
                && IsEarliest(old(jobs), code) && old(jobs)[code].slot.pollAt <= now
                && code !in old(outstanding) && outstanding == old(outstanding) + {code}
                && jobs == old(jobs)[code := old(jobs)[code].(slot := Claimed(None))]
      ensures r.value.WaitUntil? ==>
                && now < r.value.moment && jobs == old(jobs) && outstanding == old(outstanding)
                && exists code :: IsEarliest(jobs, code) && jobs[code].slot.pollAt == r.value.moment
      ensures r.value.WaitForPoolEvent? ==>
                && jobs == old(jobs) && outstanding == old(outstanding)
                && forall code :: code in jobs ==> !jobs[code].slot.Queued?
    {
      if dueQueue == {} {
        NothingQueued(dueQueue, jobs);
        return Done(WaitForPoolEvent);
      }
      ghost var least := LeastEntryExists(dueQueue);
      var first :| first in dueQueue && forall e :: e in dueQueue ==> Leq(first, e);
      LeastEntryIsEarliest(dueQueue, jobs, first);
      if first.pollAt > now {
        return Done(WaitUntil(first.pollAt));
      }
      dueQueue := dueQueue - {first};
      if first.code !in jobs {
        return UnknownJob(first.code);
      }
      TransitionJob(first.code, jobs[first.code].(slot := Claimed(None)));
      outstanding := outstanding + {first.code};
      return Done(ClaimedJob(first.code));
    }

    /** Refused exactly for an unknown code. */
    method RescheduleJob(code: JobCode, progress: Progress, reading: Reading) returns (r: ScheduleResult<()>)
      requires Valid()
      modifies this
      ensures Valid() && outstanding == old(outstanding) && jobs.Keys == old(jobs.Keys)
      ensures r == if code in old(jobs) then Done(()) else UnknownJob(code)
      ensures r.Done? ==> jobs == old(jobs)[code := Reschedule(config, old(jobs)[code], progress, reading)]
      ensures r.Done? ==> exists alone :: IsAsAsked(config, old(jobs)[code].interval, progress, reading, alone)
                                          && IsRecorded(config, old(jobs)[code], progress, alone, jobs[code])
      ensures !r.Done? ==> jobs == old(jobs)
    {
      if code !in jobs {
        return UnknownJob(code);
      }
      ghost var alone, after := RecordedAsAsked(config, jobs[code], progress, reading);
      TransitionJob(code, Reschedule(config, jobs[code], progress, reading));
      assert outstanding == ClaimedCodes(jobs);
      return Done(());
    }

    /** Refused exactly for a claim that is not outstanding, so never for one the schedule handed out. */
    method ReleaseJob(code: JobCode, progress: Progress, reading: Reading) returns (r: ScheduleResult<()>)
      requires Valid()
      modifies this
      ensures Valid() && jobs.Keys == old(jobs.Keys)
      ensures r.Done? <==> code in old(outstanding)
      ensures r.UnknownJob? <==> code !in old(jobs)
      ensures r.Done? ==>
                && outstanding == old(outstanding) - {code}
                && code in old(jobs) && Release(config, old(jobs)[code], progress, reading).Some?
                && jobs == old(jobs)[code := Release(config, old(jobs)[code], progress, reading).value]
      ensures r.Done? ==> exists alone :: IsAsAsked(config, old(jobs)[code].interval, progress, reading, alone)
                                          && IsReleased(config, old(jobs)[code].slot.overwritten, alone, jobs[code])
      ensures !r.Done? ==> jobs == old(jobs) && outstanding == old(outstanding)
    {
      if code !in jobs {
        return UnknownJob(code);
      }
      var released := Release(config, jobs[code], progress, reading);
      if released.None? {
        return NotClaimed(code);
      }
      ghost var alone, after := ReleasedAsAsked(config, jobs[code], progress, reading);
      TransitionJob(code, released.value);
      outstanding := outstanding - {code};
      assert outstanding == ClaimedCodes(jobs);
      return Done(());
    }
  }
}
