/**
 * Polling: the moment each job of a pool comes up again, backoff included, and what becomes of
 * that moment while a worker holds the job.
 */
module Schedules {
  import opened Base

  /** Job codes, numbered in the order their texts sort. */
  type JobCode = nat

  // ----- Settings -----

  const YEAR: Span := 365 * 24 * 60 * 60 * SECOND
  const DEFAULT_MAX_POLL_INTERVAL_FACTOR: nat := 10

  datatype PollConfig = PollConfig(pollInterval: Span, pollJitter: Span, maxPollInterval: Option<Span>)

  const DEFAULT_CONFIG := PollConfig(200_000_000, 50_000_000, None)

  datatype Setting = SetPollInterval(interval: Span) | SetPollJitter(jitter: Span) | SetMaxPollInterval(ceiling: Span)

  function Configure(c: PollConfig, setting: Setting): Result<PollConfig> {
    match setting
    case SetPollInterval(interval) =>
      if interval == 0 || interval > YEAR then Err(Other)
      else if c.maxPollInterval.Some? && c.maxPollInterval.value < interval then Err(Other)
      else Ok(c.(pollInterval := interval))
    case SetPollJitter(jitter) => Ok(c.(pollJitter := jitter))
    case SetMaxPollInterval(ceiling) =>
      if ceiling < c.pollInterval || ceiling > YEAR then Err(Other)
      else Ok(c.(maxPollInterval := Some(ceiling)))
  }

  function Ceiling(c: PollConfig): Span {
    if c.maxPollInterval.Some? then c.maxPollInterval.value else c.pollInterval * DEFAULT_MAX_POLL_INTERVAL_FACTOR
  }

  /** What every accepted set of settings keeps. */
  predicate IsPollable(c: PollConfig) {
    0 < c.pollInterval <= YEAR && c.pollInterval <= Ceiling(c) <= DEFAULT_MAX_POLL_INTERVAL_FACTOR * YEAR
  }

  // ----- When a job is due -----

  datatype PollDue = At(moment: Moment) | NeverDue

  function Merge(a: PollDue, b: PollDue): PollDue {
    if a.NeverDue? || b.NeverDue? then NeverDue else At(Min(a.moment, b.moment))
  }

  datatype Progress =
    | IterationsEnded
    | NextIterationDueAt(due: Moment)
    | TaskPickable
    | RetryDueAt(at: Moment)
    | NothingPickable
    | Stalled

  /** The monotonic clock, the system clock, and the jitter drawn for this poll. */
  datatype Reading = Reading(now: Moment, utc: Moment, jitter: Span)

  function DurationUntil(moment: Moment, utc: Moment): Span {
    if moment <= utc then 0 else Min(moment - utc, YEAR)
  }

  function RetryWait(c: PollConfig, retryAt: Moment, utc: Moment): Span {
    Min(DurationUntil(retryAt, utc), Ceiling(c))
  }

  function BackedOff(c: PollConfig, last: Span): Span {
    Min(last * 2, Ceiling(c))
  }

  function PollAt(r: Reading, wait: Span): Moment {
    if wait == 0 then r.now else r.now + wait + r.jitter
  }

  datatype Slot = Queued(pollAt: Moment) | Claimed(overwritten: Option<PollDue>) | Exhausted

  datatype JobPoll = JobPoll(interval: Span, slot: Slot)

  /** The wait before jitter and the backoff step `progress` asks for; no wait where none is scheduled. */
  function RequestedWait(c: PollConfig, interval: Span, progress: Progress, utc: Moment): (Span, Span) {
    match progress
    case IterationsEnded => (0, interval)
    case NextIterationDueAt(due) => (DurationUntil(due, utc), c.pollInterval)
    case TaskPickable => (0, c.pollInterval)
    case RetryDueAt(at) => (RetryWait(c, at, utc), c.pollInterval)
    case NothingPickable => (c.pollInterval, c.pollInterval)
    case Stalled => (BackedOff(c, interval), BackedOff(c, interval))
  }

  /** The poll `progress` asks for. */
  function RequestedDue(c: PollConfig, interval: Span, progress: Progress, r: Reading): PollDue {
    if progress.IterationsEnded? then NeverDue
    else At(PollAt(r, RequestedWait(c, interval, progress, r.utc).0))
  }

  function SlotFor(due: PollDue): Slot {
    if due.At? then Queued(due.moment) else Exhausted
  }

  /** Gives a claimed job back; `None` when it was not claimed. */
  function Release(c: PollConfig, job: JobPoll, progress: Progress, r: Reading): Option<JobPoll> {
    match job.slot
    case Claimed(overwritten) =>
      var due := RequestedDue(c, job.interval, progress, r);
      if overwritten.None? then Some(JobPoll(RequestedWait(c, job.interval, progress, r.utc).1, SlotFor(due)))
      else Some(JobPoll(c.pollInterval, SlotFor(Merge(due, overwritten.value))))
    case _ => None
  }

  predicate ClosesIteration(progress: Progress) {
    progress.IterationsEnded? || progress.NextIterationDueAt?
  }

  /** Records the end of an execution. */
  function Reschedule(c: PollConfig, job: JobPoll, progress: Progress, r: Reading): JobPoll {
    var due := RequestedDue(c, job.interval, progress, r);
    match job.slot
    case Exhausted => job
    case Claimed(overwritten) =>
      job.(slot := Claimed(Some(if overwritten.None? then due else Merge(overwritten.value, due))))
    case Queued(pollAt) =>
      JobPoll(c.pollInterval, SlotFor(if ClosesIteration(progress) then due else Merge(At(pollAt), due)))
  }

  // ----- Intervals -----

  lemma {:induction false} ConfiguringStaysPollable(settings: seq<Setting>) returns (c: PollConfig)
    ensures IsPollable(c) && c == Configured(settings)
  {
    c := Configured(settings);
    if settings != [] {
      var before := ConfiguringStaysPollable(settings[..|settings| - 1]);
    }
  }

  /** The settings after any calls, those refused changing nothing. */
  function Configured(settings: seq<Setting>): PollConfig {
    if settings == [] then DEFAULT_CONFIG
    else
      var before := Configured(settings[..|settings| - 1]);
      match Configure(before, settings[|settings| - 1])
      case Err(_) => before
      case Ok(c) => c
  }

  /**
   * For every configuration that can be assembled: waits and backoff steps stay between the base
   * interval and the ceiling where they are steps, and even the doubled step stays within twenty
   * years.
   */
  lemma {:induction false} IntervalsStayInRange(settings: seq<Setting>, interval: Span, progress: Progress, utc: Moment)
    requires Configured(settings).pollInterval <= interval <= Ceiling(Configured(settings))
    ensures var c := Configured(settings);
            var (wait, step) := RequestedWait(c, interval, progress, utc);
            && c.pollInterval <= step <= Ceiling(c)
            && wait <= 10 * YEAR && step <= 10 * YEAR && interval * 2 <= 20 * YEAR
  {
    var c := ConfiguringStaysPollable(settings);
  }

  function Power(base: nat, n: nat): nat {
    if n == 0 then 1 else base * Power(base, n - 1)
  }

  /** `n` releases in a row that moved nothing, each after its own claim and with no end recorded. */
  function StalledReleases(c: PollConfig, job: JobPoll, readings: seq<Reading>): JobPoll {
    if readings == [] then job
    else
      var before := StalledReleases(c, job, readings[..|readings| - 1]).(slot := Claimed(None));
      Release(c, before, Stalled, readings[|readings| - 1]).value
  }

  lemma Doubling(base: nat, power: nat, ceiling: nat)
    ensures Min(Min(base * power, ceiling) * 2, ceiling) == Min(base * (2 * power), ceiling)
  {
    assert base * (2 * power) == (base * power) * 2;
  }

  /** The backoff doubles from the base interval up to the ceiling. */
  lemma {:induction false} BackoffDoubles(c: PollConfig, job: JobPoll, readings: seq<Reading>)
    requires IsPollable(c) && job.interval == c.pollInterval
    ensures StalledReleases(c, job, readings).interval == Min(c.pollInterval * Power(2, |readings|), Ceiling(c))
  {
    if readings != [] {
      BackoffDoubles(c, job, readings[..|readings| - 1]);
      Doubling(c.pollInterval, Power(2, |readings| - 1), Ceiling(c));
    }
  }

  // ----- Execution ends recorded under a claim -----

  datatype End = End(progress: Progress, reading: Reading)

  function RecordEnds(c: PollConfig, job: JobPoll, ends: seq<End>): JobPoll {
    if ends == [] then job
    else
      var last := ends[|ends| - 1];
      Reschedule(c, RecordEnds(c, job, ends[..|ends| - 1]), last.progress, last.reading)
  }

  /** `due` answers for every one of `ends`: never if one of them says so, else the earliest moment. */
  ghost predicate AnswersAll(c: PollConfig, interval: Span, ends: seq<End>, due: PollDue) {
    && (due.NeverDue? <==> exists i :: 0 <= i < |ends| && ends[i].progress.IterationsEnded?)
    && (due.At? ==>
          && (forall i :: 0 <= i < |ends| ==> due.moment <= RequestedDue(c, interval, ends[i].progress, ends[i].reading).moment)
          && (exists i :: 0 <= i < |ends| && due == RequestedDue(c, interval, ends[i].progress, ends[i].reading)))
  }

  lemma {:induction false} ClaimGathersEnds(c: PollConfig, job: JobPoll, ends: seq<End>)
    requires job.slot == Claimed(None)
    ensures var recorded := RecordEnds(c, job, ends);
            && recorded.interval == job.interval && recorded.slot.Claimed?
            && (ends == [] <==> recorded.slot.overwritten.None?)
            && (ends != [] ==> AnswersAll(c, job.interval, ends, recorded.slot.overwritten.value))
  {
    if ends != [] {
      var before, last := ends[..|ends| - 1], ends[|ends| - 1];
      ClaimGathersEnds(c, job, before);
      var recorded, due := RecordEnds(c, job, before), RequestedDue(c, job.interval, last.progress, last.reading);
      var merged := RecordEnds(c, job, ends).slot.overwritten.value;
      assert ends[|ends| - 1] == last && forall i :: 0 <= i < |before| ==> ends[i] == before[i];
      if before != [] {
        var gathered := recorded.slot.overwritten.value;
        if gathered.NeverDue? {
          var i :| 0 <= i < |before| && before[i].progress.IterationsEnded?;
          assert ends[i].progress.IterationsEnded?;
        } else if !due.NeverDue? {
          var i :| 0 <= i < |before| && gathered == RequestedDue(c, job.interval, before[i].progress, before[i].reading);
          assert gathered == RequestedDue(c, job.interval, ends[i].progress, ends[i].reading);
        }
      }
    }
  }

  /**
   * The poll set when a claim is released answers for the task start and for every execution end
   * recorded meanwhile: exhausted if any of them ended the iterations, else queued at the earliest
   * moment any of them asked for.
   */
  lemma {:induction false} ReleaseAnswersForEveryEnd(c: PollConfig, job: JobPoll, ends: seq<End>, start: End)
    requires job.slot == Claimed(None)
    ensures var released := Release(c, RecordEnds(c, job, ends), start.progress, start.reading);
            && released.Some?
            && exists due :: released.value.slot == SlotFor(due) && AnswersAll(c, job.interval, ends + [start], due)
  {
    ClaimGathersEnds(c, job, ends + [start]);
    ClaimGathersEnds(c, job, ends);
    var all := ends + [start];
    assert all[..|all| - 1] == ends && all[|all| - 1] == start;
    var due := RecordEnds(c, job, all).slot.overwritten.value;
    assert AnswersAll(c, job.interval, all, due);
    assert Release(c, RecordEnds(c, job, ends), start.progress, start.reading).value.slot == SlotFor(due);
  }

  lemma AnswerIsUnique(c: PollConfig, interval: Span, a: seq<End>, b: seq<End>, due: PollDue, due': PollDue)
    requires multiset(a) == multiset(b)
    requires AnswersAll(c, interval, a, due) && AnswersAll(c, interval, b, due')
    ensures due == due'
  {
    forall i | 0 <= i < |a| ensures a[i] in b {
      assert a[i] in multiset(a);
    }
    forall i | 0 <= i < |b| ensures b[i] in a {
      assert b[i] in multiset(b);
    }
  }

  /** The order the ends are recorded in does not matter. */
  lemma {:induction false} EndsCommute(c: PollConfig, job: JobPoll, a: seq<End>, b: seq<End>, start: End)
    requires job.slot == Claimed(None) && multiset(a) == multiset(b)
    ensures Release(c, RecordEnds(c, job, a), start.progress, start.reading)
         == Release(c, RecordEnds(c, job, b), start.progress, start.reading)
  {
    assert |multiset(a)| == |a| && |multiset(b)| == |b|;
    ClaimGathersEnds(c, job, a);
    ClaimGathersEnds(c, job, b);
    if a != [] {
      AnswerIsUnique(c, job.interval, a, b, RecordEnds(c, job, a).slot.overwritten.value,
                     RecordEnds(c, job, b).slot.overwritten.value);
    }
  }

  /** An exhausted job is never queued again by a recorded end or a release. */
  lemma {:induction false} ExhaustedStays(c: PollConfig, job: JobPoll, ends: seq<End>, start: End)
    requires job.slot.Exhausted?
    ensures RecordEnds(c, job, ends) == job
    ensures Release(c, RecordEnds(c, job, ends), start.progress, start.reading).None?
  {
    if ends != [] {
      ExhaustedStays(c, job, ends[..|ends| - 1], start);
    }
  }
}
