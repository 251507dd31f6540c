/**
 * Fairness of the schedule: once the clock has passed a queued job's poll moment, no other job is
 * claimed twice before it.
 */
module Overtaking {
  import opened Base
  import opened Schedules
  import opened PollSchedulers

  datatype Event =
    | ClaimEvent(now: Moment)
    | ReleaseEvent(code: JobCode, progress: Progress, reading: Reading)
    | RescheduleEvent(code: JobCode, progress: Progress, reading: Reading)

  function TimeOf(e: Event): Moment {
    if e.ClaimEvent? then e.now else e.reading.now
  }

  /** The job a look at the schedule claims: the earliest one, if it is due. */
  ghost function ClaimAt(jobs: JobMap, now: Moment): Option<JobCode> {
    if code :| IsEarliest(jobs, code) && jobs[code].slot.pollAt <= now then Some(code) else None
  }

  /** There is one earliest job, so this is the job the scheduler itself hands out. */
  lemma EarliestIsUnique(jobs: JobMap, now: Moment, code: JobCode)
    requires IsEarliest(jobs, code) && jobs[code].slot.pollAt <= now
    ensures ClaimAt(jobs, now) == Some(code)
  {
    var claim := ClaimAt(jobs, now).value;
    assert IsEarliest(jobs, claim);
  }

  ghost function Step(c: PollConfig, jobs: JobMap, e: Event): JobMap {
    match e
    case ClaimEvent(now) =>
      var claim := ClaimAt(jobs, now);
      if claim.None? then jobs else jobs[claim.value := jobs[claim.value].(slot := Claimed(None))]
    case ReleaseEvent(code, progress, reading) =>
      if code in jobs && Release(c, jobs[code], progress, reading).Some?
      then jobs[code := Release(c, jobs[code], progress, reading).value] else jobs
    case RescheduleEvent(code, progress, reading) =>
      if code in jobs then jobs[code := Reschedule(c, jobs[code], progress, reading)] else jobs
  }

  ghost function Run(c: PollConfig, jobs: JobMap, events: seq<Event>): JobMap {
    if events == [] then jobs
    else Step(c, Run(c, jobs, events[..|events| - 1]), events[|events| - 1])
  }

  /** The jobs claimed along a run, in order. */
  ghost function Claims(c: PollConfig, jobs: JobMap, events: seq<Event>): seq<JobCode> {
    if events == [] then []
    else
      var before, last := events[..|events| - 1], events[|events| - 1];
      var claim := if last.ClaimEvent? then ClaimAt(Run(c, jobs, before), last.now) else None;
      Claims(c, jobs, before) + if claim.Some? then [claim.value] else []
  }

  ghost function ClaimEvents(events: seq<Event>): nat {
    if events == [] then 0
    else ClaimEvents(events[..|events| - 1]) + if events[|events| - 1].ClaimEvent? then 1 else 0
  }

  /** Every event happens after `moment`. */
  ghost predicate After(moment: Moment, events: seq<Event>) {
    forall i :: 0 <= i < |events| ==> moment < TimeOf(events[i])
  }

  ghost predicate NeverCloses(code: JobCode, events: seq<Event>) {
    forall i :: 0 <= i < |events| && events[i].RescheduleEvent? && events[i].code == code ==>
      !ClosesIteration(events[i].progress)
  }

  /** A job polled later than `moment` whatever happens to it next. */
  ghost predicate IsBehind(job: JobPoll, moment: Moment) {
    match job.slot
    case Queued(pollAt) => moment < pollAt
    case Claimed(overwritten) => overwritten.None? || overwritten.value.NeverDue? || moment < overwritten.value.moment
    case Exhausted => true
  }

  /** What a run that has not claimed `code` keeps: it still waits, and what was claimed is behind it. */
  ghost predicate Waits(jobs: JobMap, code: JobCode, moment: Moment, claimed: seq<JobCode>) {
    && code in jobs && jobs[code].slot.Queued? && jobs[code].slot.pollAt <= moment
    && (forall i :: 0 <= i < |claimed| ==> claimed[i] in jobs && IsBehind(jobs[claimed[i]], moment))
    && (forall i, j :: 0 <= i < j < |claimed| ==> claimed[i] != claimed[j])
  }

  lemma StepKeepsBehind(c: PollConfig, jobs: JobMap, e: Event, moment: Moment, other: JobCode)
    requires other in jobs && IsBehind(jobs[other], moment) && moment < TimeOf(e)
    ensures other in Step(c, jobs, e) && IsBehind(Step(c, jobs, e)[other], moment)
  {
  }

  lemma {:induction false} EarliestExists(jobs: JobMap, code: JobCode) returns (first: JobCode)
    requires code in jobs && jobs[code].slot.Queued?
    ensures IsEarliest(jobs, first)
  {
    var queue := set x | x in jobs && jobs[x].slot.Queued? :: Entry(jobs[x].slot.pollAt, x);
    assert Entry(jobs[code].slot.pollAt, code) in queue;
    assert Indexes(queue, jobs);
    var least := LeastEntryExists(queue);
    LeastEntryIsEarliest(queue, jobs, least);
    first := least.code;
  }

  /** With `code` overdue, a look always claims somebody, and never a job already claimed before. */
  lemma OverdueClaims(jobs: JobMap, code: JobCode, moment: Moment, claimed: seq<JobCode>, now: Moment)
    requires Waits(jobs, code, moment, claimed) && moment < now
    ensures ClaimAt(jobs, now).Some?
    ensures ClaimAt(jobs, now).value in jobs && ClaimAt(jobs, now).value !in claimed
  {
    var first := EarliestExists(jobs, code);
    assert jobs[first].slot.pollAt <= now;
    var claim := ClaimAt(jobs, now).value;
    assert IsEarliest(jobs, claim);
    assert jobs[claim].slot.pollAt <= moment;
  }

  lemma {:induction false} RunKeepsWaiting(c: PollConfig, jobs: JobMap, code: JobCode, moment: Moment, events: seq<Event>)
    requires code in jobs && jobs[code].slot.Queued? && jobs[code].slot.pollAt <= moment
    requires After(moment, events) && NeverCloses(code, events)
    requires code !in Claims(c, jobs, events)
    ensures Waits(Run(c, jobs, events), code, moment, Claims(c, jobs, events))
    ensures |Claims(c, jobs, events)| == ClaimEvents(events)
    ensures Run(c, jobs, events).Keys == jobs.Keys
  {
    if events != [] {
      var before, last := events[..|events| - 1], events[|events| - 1];
      RunKeepsWaiting(c, jobs, code, moment, before);
      var state, claimed := Run(c, jobs, before), Claims(c, jobs, before);
      var next, claims := Step(c, state, last), Claims(c, jobs, events);
      if last.ClaimEvent? {
        OverdueClaims(state, code, moment, claimed, last.now);
        var claim := ClaimAt(state, last.now).value;
        assert claims == claimed + [claim];
        assert claims[|claimed|] == claim;
      } else {
        assert claims == claimed;
      }
      forall i | 0 <= i < |claims| ensures claims[i] in next && IsBehind(next[claims[i]], moment) {
        if i < |claimed| {
          StepKeepsBehind(c, state, last, moment, claimed[i]);
        }
      }
    }
  }

  /**
   * Bounded overtaking. Take a queued job whose poll moment has passed, and any claims, releases
   * and recorded ends that do not close its iteration. As long as it is not claimed, every look at
   * the schedule claims another job, no job twice, so it is claimed within as many looks as there
   * are jobs.
   */
  lemma {:induction false} NoJobOvertakesTwice(c: PollConfig, jobs: JobMap, code: JobCode, events: seq<Event>)
    requires code in jobs && jobs[code].slot.Queued?
    requires After(jobs[code].slot.pollAt, events) && NeverCloses(code, events)
    requires code !in Claims(c, jobs, events)
    ensures var claims := Claims(c, jobs, events);
            && (forall i, j :: 0 <= i < j < |claims| ==> claims[i] != claims[j])
            && |claims| == ClaimEvents(events) < |jobs|
  {
    RunKeepsWaiting(c, jobs, code, jobs[code].slot.pollAt, events);
    var claims := Claims(c, jobs, events);
    DistinctFits(claims, jobs.Keys - {code});
  }

  lemma {:induction false} DistinctFits(codes: seq<JobCode>, bound: set<JobCode>)
    requires forall i, j :: 0 <= i < j < |codes| ==> codes[i] != codes[j]
    requires forall i :: 0 <= i < |codes| ==> codes[i] in bound
    ensures |codes| <= |bound|
  {
    if codes != [] {
      var last := codes[|codes| - 1];
      DistinctFits(codes[..|codes| - 1], bound - {last});
    }
  }
}
