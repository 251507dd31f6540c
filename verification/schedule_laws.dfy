/** When a job is polled next, for each way an execution or a claim may end, in moments and intervals alone. */
module ScheduleLaws {
  import opened Base
  import opened Schedules

  predicate IsPolledAtOnce(slot: Slot, r: Reading) {
    slot == Queued(r.now)
  }

  predicate IsPolledAfter(slot: Slot, r: Reading, wait: Span) {
    slot == Queued(r.now + wait + r.jitter)
  }

  /** The configured ceiling or, without one, ten base intervals. */
  function LongestWait(c: PollConfig): Span {
    if c.maxPollInterval == None then 10 * c.pollInterval else c.maxPollInterval.value
  }

  /**
   * The poll an end of the given kind asks for, and the step it leaves. Work at hand is polled for at
   * the reading; with nothing at hand the job rests for the base interval; a retry or a due iteration
   * is polled for at the reading if its moment has passed, and otherwise no earlier than it, unless the
   * ceiling or a year cuts the wait off; a stalled job waits twice the step before, up to the ceiling.
   */
  predicate IsAsAsked(c: PollConfig, last: Span, progress: Progress, r: Reading, after: JobPoll) {
    var longest := LongestWait(c);
    match progress
    case IterationsEnded => after == JobPoll(last, Exhausted)
    case TaskPickable => after.interval == c.pollInterval && IsPolledAtOnce(after.slot, r)
    case NothingPickable => after.interval == c.pollInterval && IsPolledAfter(after.slot, r, c.pollInterval)
    case NextIterationDueAt(due) =>
      && after.interval == c.pollInterval
      && (due <= r.utc ==> IsPolledAtOnce(after.slot, r))
      && (r.utc < due <= r.utc + YEAR ==> IsPolledAfter(after.slot, r, due - r.utc))
      && (r.utc + YEAR < due ==> IsPolledAfter(after.slot, r, YEAR))
    case RetryDueAt(at) =>
      && after.interval == c.pollInterval
      && (at <= r.utc ==> IsPolledAtOnce(after.slot, r))
      && (r.utc < at && at - r.utc <= longest && at - r.utc <= YEAR ==> IsPolledAfter(after.slot, r, at - r.utc))
      && (longest < at - r.utc && longest <= YEAR ==> IsPolledAfter(after.slot, r, longest))
      && (YEAR < at - r.utc && YEAR <= longest ==> IsPolledAfter(after.slot, r, YEAR))
    case Stalled =>
      && IsPolledAfter(after.slot, r, after.interval)
      && (2 * last <= longest ==> after.interval == 2 * last)
      && (longest < 2 * last ==> after.interval == longest)
  }

  /** The slot answers for two ends: exhausted if either is, else queued at the earlier moment. */
  predicate AnswersBoth(slot: Slot, a: Slot, b: Slot) {
    && (slot.Exhausted? <==> a.Exhausted? || b.Exhausted?)
    && (slot.Exhausted? || (slot.Queued? && (slot == a || slot == b)))
    && (slot.Queued? && a.Queued? && b.Queued? ==> slot.pollAt <= a.pollAt && slot.pollAt <= b.pollAt)
  }

  /**
   * A claim given back: as asked, or, with ends recorded under it, in answer to these as well and with
   * the step reset.
   */
  predicate IsReleased(c: PollConfig, overwritten: Option<PollDue>, alone: JobPoll, after: JobPoll) {
    match overwritten
    case None => after == alone
    case Some(NeverDue) => after.interval == c.pollInterval && AnswersBoth(after.slot, alone.slot, Exhausted)
    case Some(At(moment)) => after.interval == c.pollInterval && AnswersBoth(after.slot, alone.slot, Queued(moment))
  }

  lemma ReleasedAsAsked(c: PollConfig, job: JobPoll, progress: Progress, r: Reading) returns (alone: JobPoll, after: JobPoll)
    requires IsPollable(c) && c.pollInterval <= job.interval && job.slot.Claimed?
    ensures IsAsAsked(c, job.interval, progress, r, alone)
    ensures Release(c, job, progress, r) == Some(after) && IsReleased(c, job.slot.overwritten, alone, after)
  {
    alone := Release(c, job.(slot := Claimed(None)), progress, r).value;
    after := Release(c, job, progress, r).value;
  }

  /**
   * The end of an execution recorded: a queued job is moved to what it asks for, outright if the
   * iteration closed and otherwise only forward, and its step reset. Under a claim it is gathered and
   * the step stands; an exhausted job stays as it is.
   */
  predicate IsRecorded(c: PollConfig, job: JobPoll, progress: Progress, alone: JobPoll, after: JobPoll) {
    match job.slot
    case Exhausted => after == job
    case Queued(pollAt) =>
      && after.interval == c.pollInterval
      && (if progress == IterationsEnded || progress.NextIterationDueAt? then after.slot == alone.slot
          else AnswersBoth(after.slot, job.slot, alone.slot))
    case Claimed(overwritten) =>
      && after.interval == job.interval && after.slot.Claimed? && after.slot.overwritten.Some?
      && var gathered := SlotFor(after.slot.overwritten.value);
         if overwritten == None then gathered == alone.slot
         else AnswersBoth(gathered, SlotFor(overwritten.value), alone.slot)
  }

  lemma RecordedAsAsked(c: PollConfig, job: JobPoll, progress: Progress, r: Reading) returns (alone: JobPoll, after: JobPoll)
    requires IsPollable(c) && c.pollInterval <= job.interval
    ensures IsAsAsked(c, job.interval, progress, r, alone)
    ensures after == Reschedule(c, job, progress, r) && IsRecorded(c, job, progress, alone, after)
  {
    alone := Release(c, job.(slot := Claimed(None)), progress, r).value;
    after := Reschedule(c, job, progress, r);
  }

  /** `at` is the moment the end asks for, if it asks for one. */
  ghost predicate AsksFor(c: PollConfig, last: Span, end: End, at: Moment) {
    exists after :: IsAsAsked(c, last, end.progress, end.reading, after) && after.slot == Queued(at)
  }

  lemma AsksForItsDue(c: PollConfig, last: Span, end: End, at: Moment)
    requires IsPollable(c) && c.pollInterval <= last
    ensures AsksFor(c, last, end, at) <==> RequestedDue(c, last, end.progress, end.reading) == At(at)
  {
    var alone, after := ReleasedAsAsked(c, JobPoll(last, Claimed(None)), end.progress, end.reading);
    if AsksFor(c, last, end, at) {
      var asked :| IsAsAsked(c, last, end.progress, end.reading, asked) && asked.slot == Queued(at);
    }
  }

  /**
   * A claim given back after any ends were recorded under it: exhausted exactly if one of them or the
   * task start ended the iterations, and otherwise queued at the earliest of the moments they ask for.
   */
  lemma {:induction false} ReleasedAtTheEarliest(c: PollConfig, last: Span, ends: seq<End>, start: End) returns (after: JobPoll)
    requires IsPollable(c) && c.pollInterval <= last
    ensures Release(c, RecordEnds(c, JobPoll(last, Claimed(None)), ends), start.progress, start.reading) == Some(after)
    ensures after.slot.Exhausted? <==> exists end :: end in ends + [start] && end.progress == IterationsEnded
    ensures !after.slot.Exhausted? ==>
              && after.slot.Queued?
              && (forall end, at :: end in ends + [start] && AsksFor(c, last, end, at) ==> after.slot.pollAt <= at)
              && exists end :: end in ends + [start] && AsksFor(c, last, end, after.slot.pollAt)
  {
    var all := ends + [start];
    ReleaseAnswersForEveryEnd(c, JobPoll(last, Claimed(None)), ends, start);
    after := Release(c, RecordEnds(c, JobPoll(last, Claimed(None)), ends), start.progress, start.reading).value;
    var due :| after.slot == SlotFor(due) && AnswersAll(c, last, all, due);
    EarliestIsAskedFor(c, last, all, due);
  }

  lemma EarliestIsAskedFor(c: PollConfig, last: Span, ends: seq<End>, due: PollDue)
    requires IsPollable(c) && c.pollInterval <= last && AnswersAll(c, last, ends, due)
    ensures due.NeverDue? <==> exists end :: end in ends && end.progress == IterationsEnded
    ensures due.At? ==>
              && (forall end, at :: end in ends && AsksFor(c, last, end, at) ==> due.moment <= at)
              && exists end :: end in ends && AsksFor(c, last, end, due.moment)
  {
    if due.NeverDue? {
      var i :| 0 <= i < |ends| && ends[i].progress.IterationsEnded?;
      assert ends[i] in ends;
    } else {
      forall end, at | end in ends && AsksFor(c, last, end, at) ensures due.moment <= at {
        AsksForItsDue(c, last, end, at);
      }
      var i :| 0 <= i < |ends| && due == RequestedDue(c, last, ends[i].progress, ends[i].reading);
      AsksForItsDue(c, last, ends[i], due.moment);
      assert ends[i] in ends;
    }
  }

  /** Only a claimed job can be given back. */
  lemma OnlyClaimsAreReleased(c: PollConfig, job: JobPoll, progress: Progress, r: Reading)
    ensures Release(c, job, progress, r) == None <==> job.slot == Exhausted || job.slot.Queued?
  {
  }

  /** A setting is taken exactly if the intervals stay ordered and within a year, and sets nothing else. */
  lemma SettingLaw(c: PollConfig, setting: Setting)
    ensures var configured := Configure(c, setting);
            match setting
            case SetPollInterval(interval) =>
              && (configured.Ok? <==> 0 < interval <= YEAR && (c.maxPollInterval.Some? ==> interval <= c.maxPollInterval.value))
              && (configured.Ok? ==> configured.value == PollConfig(interval, c.pollJitter, c.maxPollInterval))
            case SetPollJitter(jitter) => configured == Ok(PollConfig(c.pollInterval, jitter, c.maxPollInterval))
            case SetMaxPollInterval(ceiling) =>
              && (configured.Ok? <==> c.pollInterval <= ceiling <= YEAR)
              && (configured.Ok? ==> configured.value == PollConfig(c.pollInterval, c.pollJitter, Some(ceiling)))
  {
  }
}
