/**
 * Retention: which iterations of a job stay stored, under any interleaving of iteration starts,
 * reports, lost reports and start-up reconciliations.
 */
module Retention {
  import opened Base

  const MIN_ITERATION_RETENTION: nat := 5

  /** The highest number retention lets go of when `iterNum` has been reached. */
  function Boundary(retention: nat, iterNum: nat): Option<nat> {
    if iterNum <= retention then None else Some(iterNum - retention)
  }

  predicate IsRetained(retention: nat, newest: nat, i: nat) {
    newest < i + retention
  }

  /** The newest `min(newest, retention)` iterations. */
  function Window(retention: nat, newest: nat): set<nat> {
    set i | 1 <= i <= newest && IsRetained(retention, newest, i)
  }

  /** How far one reconciliation has come: it saw the newest iteration, then listed what to delete. */
  datatype Sweep = Seen(newest: nat) | Listed(boundary: nat, victims: set<nat>)

  /**
   * The stored iterations of one job. `reports` are the starts reported and not yet handled, `lost`
   * those whose report was dropped, `late` the deleted iterations a lagging worker created again and
   * no deletion has come across since, and `cleared` the highest boundary a reconciliation deleted to.
   */
  datatype History = History(
    newest: nat,
    stored: set<nat>,
    reports: set<nat>,
    lost: set<nat>,
    late: set<nat>,
    sweeps: map<Id, Sweep>,
    cleared: nat)

  datatype Event =
    | StartIteration(isReported: bool)
    | LateStart(iterNum: nat, isReported: bool)
    | HandleReport(iterNum: nat)
    | DropReport(iterNum: nat)
    | FindMeta(sweep: Id)
    | ListOutdated(sweep: Id)
    | DeleteOutdated(sweep: Id)
    | StopSweep(sweep: Id)

  const NO_HISTORY := History(0, {}, {}, {}, {}, map[], 0)

  /** Iteration one comes from creating the job, which nobody reports. */
  function Reported(h: History, n: nat, isReported: bool): History {
    if n == 1 then h
    else if isReported then h.(reports := h.reports + {n})
    else h.(lost := h.lost + {n})
  }

  function Deleted(h: History, victims: set<nat>): History {
    h.(stored := h.stored - victims, late := h.late - victims)
  }

  function Step(retention: nat, h: History, e: Event): History {
    match e
    case StartIteration(isReported) =>
      var n := h.newest + 1;
      Reported(h.(newest := n, stored := h.stored + {n}), n, isReported)
    case LateStart(n, isReported) =>
      // A start is a create-only write under its own number, so it lands wherever nothing is stored.
      if n == 0 || n > h.newest || n in h.stored then h
      else Reported(h.(stored := h.stored + {n}, late := h.late + {n}), n, isReported)
    case HandleReport(iterNum) =>
      if iterNum !in h.reports then h
      else
        var boundary := Boundary(retention, iterNum);
        Deleted(h.(reports := h.reports - {iterNum}), if boundary.Some? then {boundary.value} else {})
    case DropReport(iterNum) =>
      if iterNum !in h.reports then h
      else h.(reports := h.reports - {iterNum}, lost := h.lost + {iterNum})
    case FindMeta(sweep) =>
      if h.newest == 0 then h else h.(sweeps := h.sweeps[sweep := Seen(h.newest)])
    case ListOutdated(sweep) =>
      if sweep !in h.sweeps || !h.sweeps[sweep].Seen? then h
      else
        var boundary := Boundary(retention, h.sweeps[sweep].newest);
        if boundary.None? then h.(sweeps := h.sweeps - {sweep})
        else h.(sweeps := h.sweeps[sweep := Listed(boundary.value, set i | i in h.stored && i <= boundary.value)])
    case DeleteOutdated(sweep) =>
      if sweep !in h.sweeps || !h.sweeps[sweep].Listed? then h
      else
        var s := h.sweeps[sweep];
        Deleted(h.(cleared := if h.cleared < s.boundary then s.boundary else h.cleared, sweeps := h.sweeps - {sweep}), s.victims)
    case StopSweep(sweep) => h.(sweeps := h.sweeps - {sweep})
  }

  function Run(retention: nat, events: seq<Event>): History {
    if events == [] then NO_HISTORY
    else Step(retention, Run(retention, events[..|events| - 1]), events[|events| - 1])
  }

  ghost predicate SweepOk(retention: nat, h: History, s: Sweep) {
    match s
    case Seen(newest) => newest <= h.newest
    case Listed(boundary, victims) =>
      && boundary + retention <= h.newest
      && (forall i :: i in victims ==> i <= boundary)
      && (forall i :: i in h.stored && i <= boundary ==> i in victims || i in h.late)
  }

  ghost predicate Kept(retention: nat, h: History) {
    && Window(retention, h.newest) <= h.stored
    && (forall i :: i in h.stored ==> 1 <= i <= h.newest)
    && (forall n :: n in h.reports ==> 2 <= n <= h.newest)
    && (forall i :: i in h.late ==> i in h.stored && i + retention <= h.newest)
    && (forall s {:trigger h.sweeps[s]} :: s in h.sweeps ==> SweepOk(retention, h, h.sweeps[s]))
    && (forall i :: i in h.stored ==> h.cleared < i || i in h.late)
    && (forall i :: i in h.stored && i + retention <= h.newest ==>
          i in h.late || i + retention in h.reports || i + retention in h.lost)
    && h.cleared <= h.newest
  }

  lemma StartKeeps(retention: nat, h: History, e: Event)
    requires 0 < retention && Kept(retention, h) && (e.StartIteration? || e.LateStart?)
    ensures Kept(retention, Step(retention, h, e))
  {
  }

  lemma DeletionKeeps(retention: nat, h: History, e: Event)
    requires 0 < retention && Kept(retention, h)
    requires e.HandleReport? || e.DeleteOutdated?
    ensures Kept(retention, Step(retention, h, e))
  {
  }

  lemma StepKeeps(retention: nat, h: History, e: Event)
    requires 0 < retention && Kept(retention, h)
    ensures Kept(retention, Step(retention, h, e))
  {
    if e.StartIteration? || e.LateStart? {
      StartKeeps(retention, h, e);
    } else if e.HandleReport? || e.DeleteOutdated? {
      DeletionKeeps(retention, h, e);
    }
  }

  lemma {:induction false} RunKeeps(retention: nat, events: seq<Event>)
    requires 0 < retention
    ensures Kept(retention, Run(retention, events))
  {
    if events != [] {
      RunKeeps(retention, events[..|events| - 1]);
      StepKeeps(retention, Run(retention, events[..|events| - 1]), events[|events| - 1]);
    }
  }

  /**
   * Under every interleaving, late starts included, the newest iterations, as many as the job
   * retains, stay stored - the newest one always among them - and nothing at or below a boundary a
   * reconciliation cleared is, save what was created again since. Once every report has been handled
   * and none was lost, exactly the retained ones are left if and only if no late start is left over.
   */
  lemma {:induction false} NewestIterationsRemain(retention: nat, events: seq<Event>)
    requires MIN_ITERATION_RETENTION <= retention
    ensures var h := Run(retention, events);
            && (0 < h.newest ==> h.newest in h.stored)
            && Window(retention, h.newest) <= h.stored
            && (forall i :: i in h.stored ==> i <= h.newest && (h.cleared < i || i in h.late))
            && (h.reports == {} && h.lost == {} ==>
                 (h.stored == Window(retention, h.newest) <==> forall k :: !IsLeftOver(retention, events, k)))
  {
    RunKeeps(retention, events);
    var h := Run(retention, events);
    assert 0 < h.newest ==> h.newest in Window(retention, h.newest);
    forall k ensures k in h.late <==> IsLeftOver(retention, events, k) {
      LateIsLeftOver(retention, events, k);
    }
    if h.reports == {} && h.lost == {} {
      if h.late == {} {
        forall i | i in h.stored ensures i in Window(retention, h.newest) {
          assert i + retention !in h.reports;
        }
      } else {
        var i :| i in h.late;
        assert i in h.stored && i !in Window(retention, h.newest);
      }
    }
  }

  // ----- Late starts -----

  /** The event starts `k` although a newer iteration exists. */
  predicate StartsLate(h: History, e: Event, k: nat) {
    e.LateStart? && e.iterNum == k && 1 <= k <= h.newest && k !in h.stored
  }

  /** What the event deletes: the one a report pushed out, or what a reconciliation listed. */
  function Deletes(retention: nat, h: History, e: Event): set<nat> {
    match e
    case HandleReport(n) =>
      if n in h.reports && Boundary(retention, n).Some? then {Boundary(retention, n).value} else {}
    case DeleteOutdated(sweep) =>
      if sweep in h.sweeps && h.sweeps[sweep].Listed? then h.sweeps[sweep].victims else {}
    case _ => {}
  }

  ghost predicate Spares(retention: nat, events: seq<Event>, j: nat, k: nat) {
    j < |events| ==> k !in Deletes(retention, Run(retention, events[..j]), events[j])
  }

  /** Event `i` starts `k` late, and no event after it deletes `k`. */
  ghost predicate StaysLate(retention: nat, events: seq<Event>, i: nat, k: nat) {
    && i < |events| && StartsLate(Run(retention, events[..i]), events[i], k)
    && (forall j {:trigger Spares(retention, events, j, k)} :: i < j ==> Spares(retention, events, j, k))
  }

  ghost predicate IsLeftOver(retention: nat, events: seq<Event>, k: nat) {
    exists i: nat :: StaysLate(retention, events, i, k)
  }

  lemma LateStep(retention: nat, h: History, e: Event, k: nat)
    ensures k in Step(retention, h, e).late <==> StartsLate(h, e, k) || (k in h.late && k !in Deletes(retention, h, e))
  {
  }

  lemma {:induction false} PrefixAgrees(retention: nat, before: seq<Event>, e: Event, j: nat, k: nat)
    ensures j < |before| ==> (before + [e])[j] == before[j] && (before + [e])[..j] == before[..j]
    ensures j < |before| ==> (Spares(retention, before + [e], j, k) <==> Spares(retention, before, j, k))
    ensures j == |before| ==>
              (Spares(retention, before + [e], j, k) <==> k !in Deletes(retention, Run(retention, before), e))
  {
    assert (before + [e])[..|before|] == before;
  }

  lemma {:induction false} StaysLateStep(retention: nat, before: seq<Event>, e: Event, i: nat, k: nat)
    ensures StaysLate(retention, before + [e], i, k) <==>
            || (i == |before| && StartsLate(Run(retention, before), e, k))
            || (StaysLate(retention, before, i, k) && k !in Deletes(retention, Run(retention, before), e))
  {
    PrefixAgrees(retention, before, e, i, k);
    PrefixAgrees(retention, before, e, |before|, k);
    assert (before + [e])[..|before|] == before;
    if StaysLate(retention, before + [e], i, k) && i < |before| {
      assert Spares(retention, before + [e], |before|, k);
      forall j: nat | i < j ensures Spares(retention, before, j, k) {
        assert Spares(retention, before + [e], j, k);
        PrefixAgrees(retention, before, e, j, k);
      }
    }
    if StaysLate(retention, before, i, k) && k !in Deletes(retention, Run(retention, before), e) {
      forall j: nat | i < j ensures Spares(retention, before + [e], j, k) {
        assert Spares(retention, before, j, k);
        PrefixAgrees(retention, before, e, j, k);
      }
    }
  }

  lemma {:induction false} LeftOverStep(retention: nat, before: seq<Event>, e: Event, k: nat)
    ensures IsLeftOver(retention, before + [e], k) <==>
            || StartsLate(Run(retention, before), e, k)
            || (IsLeftOver(retention, before, k) && k !in Deletes(retention, Run(retention, before), e))
  {
    forall i: nat
      ensures StaysLate(retention, before + [e], i, k) <==>
              || (i == |before| && StartsLate(Run(retention, before), e, k))
              || (StaysLate(retention, before, i, k) && k !in Deletes(retention, Run(retention, before), e))
    {
      StaysLateStep(retention, before, e, i, k);
    }
    assert StartsLate(Run(retention, before), e, k) ==> StaysLate(retention, before + [e], |before|, k);
  }

  /** What the history keeps as late is what the events say: started late and not deleted since. */
  lemma {:induction false} LateIsLeftOver(retention: nat, events: seq<Event>, k: nat)
    ensures k in Run(retention, events).late <==> IsLeftOver(retention, events, k)
  {
    if events != [] {
      var before, e := events[..|events| - 1], events[|events| - 1];
      assert events == before + [e];
      LateIsLeftOver(retention, before, k);
      LateStep(retention, Run(retention, before), e, k);
      LeftOverStep(retention, before, e, k);
    }
  }

  /** `n` starts, each reported and its report handled at once. */
  function Steady(n: nat): seq<Event> {
    if n == 0 then [] else Steady(n - 1) + [StartIteration(true)] + [HandleReport(n)]
  }

  lemma WindowMoves(retention: nat, n: nat)
    requires 0 < retention
    ensures Window(retention, n + 1)
         == Window(retention, n) + {n + 1} - (if n + 1 <= retention then {} else {n + 1 - retention})
  {
  }

  lemma SteadyStep(retention: nat, n: nat)
    requires 0 < retention
    ensures Step(retention, Step(retention, InWindow(retention, n), StartIteration(true)), HandleReport(n + 1))
         == InWindow(retention, n + 1)
  {
    WindowMoves(retention, n);
  }

  lemma {:induction false} RunAppendTwo(retention: nat, events: seq<Event>, h: History, e: Event, e': Event, h': History)
    requires Run(retention, events) == h && Step(retention, Step(retention, h, e), e') == h'
    ensures Run(retention, events + [e] + [e']) == h'
  {
    RunAppend(retention, events, e);
    RunAppend(retention, events + [e], e');
  }

  /** Exactly the window of `n` is stored, and nothing is pending. */
  function InWindow(retention: nat, n: nat): History {
    History(n, Window(retention, n), {}, {}, {}, map[], 0)
  }

  lemma {:induction false} SteadyKeepsWindow(retention: nat, n: nat)
    requires 0 < retention
    ensures Run(retention, Steady(n)) == InWindow(retention, n)
  {
    if n == 0 {
      assert Window(retention, 0) == {};
    } else {
      SteadyKeepsWindow(retention, n - 1);
      SteadyStep(retention, n - 1);
      RunAppendTwo(retention, Steady(n - 1), InWindow(retention, n - 1), StartIteration(true), HandleReport(n), InWindow(retention, n));
    }
  }

  /**
   * For every retention: a worker that slept through more than a window creates iteration 2 again.
   * Its start is reported and the report handled, every report has been handled and none was lost,
   * and yet iteration 2 stays stored beside the window.
   */
  lemma LateStartStays(retention: nat) returns (events: seq<Event>)
    requires MIN_ITERATION_RETENTION <= retention
    ensures events == Steady(retention + 3) + [LateStart(2, true)] + [HandleReport(2)]
    ensures var n := retention + 3;
            Run(retention, events) == History(n, Window(retention, n) + {2}, {}, {}, {2}, map[], 0) && 2 !in Window(retention, n)
  {
    var n := retention + 3;
    SteadyKeepsWindow(retention, n);
    events := LateStartAfter(retention, Steady(n), n);
  }

  lemma LateStartAfter(retention: nat, steady: seq<Event>, n: nat) returns (events: seq<Event>)
    requires MIN_ITERATION_RETENTION <= retention && n == retention + 3 && Run(retention, steady) == InWindow(retention, n)
    ensures events == steady + [LateStart(2, true)] + [HandleReport(2)]
    ensures Run(retention, events) == History(n, Window(retention, n) + {2}, {}, {}, {2}, map[], 0) && 2 !in Window(retention, n)
  {
    LateStartIsHandled(retention, n);
    events := steady + [LateStart(2, true)] + [HandleReport(2)];
    RunAppendTwo(retention, steady, InWindow(retention, n), LateStart(2, true), HandleReport(2),
                 History(n, Window(retention, n) + {2}, {}, {}, {2}, map[], 0));
  }

  lemma LateStartIsHandled(retention: nat, n: nat)
    requires MIN_ITERATION_RETENTION <= retention && n == retention + 3
    ensures Step(retention, Step(retention, InWindow(retention, n), LateStart(2, true)), HandleReport(2))
         == History(n, Window(retention, n) + {2}, {}, {}, {2}, map[], 0)
    ensures 2 !in Window(retention, n)
  {
  }

  /**
   * Lost reports and late starts are made up for: a reconciliation that runs to its end while no new
   * iteration starts, and none starts late once it has listed what to delete, leaves exactly the
   * retained iterations, whatever happened before and whatever else is handled meanwhile.
   */
  lemma {:induction false} ReconciliationMakesUpForLostReports(retention: nat, before: seq<Event>, sweep: Id,
                                            meanwhile: seq<Event>, later: seq<Event>)
    requires MIN_ITERATION_RETENTION <= retention
    requires NoStart(meanwhile) && NoStart(later) && NoLateStart(later)
    requires SweepsApart(meanwhile, sweep) && SweepsApart(later, sweep)
    ensures var h := Run(retention, before + [FindMeta(sweep)] + meanwhile + [ListOutdated(sweep)] + later + [DeleteOutdated(sweep)]);
            h.stored == Window(retention, h.newest)
  {
    var found := before + [FindMeta(sweep)];
    var listed := found + meanwhile + [ListOutdated(sweep)];
    var all := listed + later + [DeleteOutdated(sweep)];
    RunAppend(retention, before, FindMeta(sweep));
    ApartKeeps(retention, found, meanwhile, sweep);
    RunAppend(retention, found + meanwhile, ListOutdated(sweep));
    ApartKeeps(retention, listed, later, sweep);
    RunAppend(retention, listed + later, DeleteOutdated(sweep));
    RunKeeps(retention, all);
    RunKeeps(retention, found + meanwhile);
    var h := Run(retention, all);
    var early := Run(retention, found + meanwhile);
    assert h.newest == early.newest && h.stored <= early.stored;
    forall i | i in h.stored ensures i in Window(retention, h.newest) {
      assert i in early.stored;
    }
  }

  ghost predicate NoStart(events: seq<Event>) {
    forall i :: 0 <= i < |events| ==> !events[i].StartIteration?
  }

  ghost predicate NoLateStart(events: seq<Event>) {
    forall i :: 0 <= i < |events| ==> !events[i].LateStart?
  }

  /** None of the events belongs to `sweep`. */
  ghost predicate SweepsApart(events: seq<Event>, sweep: Id) {
    forall i :: 0 <= i < |events| ==>
      match events[i]
      case FindMeta(s) => s != sweep
      case ListOutdated(s) => s != sweep
      case DeleteOutdated(s) => s != sweep
      case StopSweep(s) => s != sweep
      case _ => true
  }

  lemma {:induction false} RunAppend(retention: nat, events: seq<Event>, e: Event)
    ensures Run(retention, events + [e]) == Step(retention, Run(retention, events), e)
  {
    assert (events + [e])[..|events|] == events;
  }

  lemma {:induction false} ApartKeeps(retention: nat, events: seq<Event>, more: seq<Event>, sweep: Id)
    requires NoStart(more) && SweepsApart(more, sweep)
    ensures var early, late := Run(retention, events), Run(retention, events + more);
            && late.newest == early.newest
            && (sweep in late.sweeps <==> sweep in early.sweeps)
            && (sweep in early.sweeps ==> late.sweeps[sweep] == early.sweeps[sweep])
            && (NoLateStart(more) ==> late.stored <= early.stored)
    decreases |more|
  {
    if more == [] {
      assert events + more == events;
    } else {
      var init, last := more[..|more| - 1], more[|more| - 1];
      assert events + more == (events + init) + [last];
      ApartKeeps(retention, events, init, sweep);
      RunAppend(retention, events + init, last);
    }
  }

  /** The report that iteration `iterNum` of a job was started. */
  datatype IterationStarted = IterationStarted(code: Id, iterNum: nat)

  /** The cleaner over the store of every job. `registry` holds the retention of each registered job. */
  class JobCleaner {
    const registry: map<Id, nat>
    var store: map<Id, set<nat>>

    constructor (registry: map<Id, nat>, store: map<Id, set<nat>>)
      ensures this.registry == registry && this.store == store
    {
      this.registry, this.store := registry, store;
    }

    function RetentionBoundary(code: Id, iterNum: nat): Option<nat> {
      if code in registry then Boundary(registry[code], iterNum) else None
    }

    /** Iteration numbers are counted from one. */
    ghost predicate Valid()
      reads this
    {
      forall code, i :: code in store && i in store[code] ==> 1 <= i
    }

    method FindJobMeta(code: Id) returns (newest: Option<nat>)
      ensures newest.None? <==> code !in store || store[code] == {}
      ensures newest.Some? ==> newest.value in store[code] && forall i :: i in store[code] ==> i <= newest.value
    {
      newest := None;
      if code in store {
        var left := store[code];
        while left != {}
          invariant left <= store[code]
          invariant newest.None? <==> left == store[code]
          invariant newest.Some? ==>
                      newest.value in store[code] && forall i :: i in store[code] && i !in left ==> i <= newest.value
          decreases left
        {
          var i :| i in left;
          left := left - {i};
          if newest.None? || newest.value < i {
            newest := Some(i);
          }
        }
      }
    }

    /** Deletes the one iteration a report pushed past the boundary, and nothing for an unregistered job. */
    method DeleteIteration(message: IterationStarted)
      modifies this`store
      ensures store.Keys == old(store).Keys
      ensures forall code :: code in store ==> store[code] == old(store)[code] - PushedOut(code, [message])
    {
      var boundary := RetentionBoundary(message.code, message.iterNum);
      if boundary.None? || message.code !in store {
        return;
      }
      store := store[message.code := store[message.code] - {boundary.value}];
    }

    /** The iterations of `code` that `messages` push past the boundary. */
    function PushedOut(code: Id, messages: seq<IterationStarted>): set<nat> {
      if messages == [] then {}
      else
        var last := messages[|messages| - 1];
        PushedOut(code, messages[..|messages| - 1])
          + if last.code == code && RetentionBoundary(code, last.iterNum).Some?
            then {RetentionBoundary(code, last.iterNum).value} else {}
    }

    /** Handles a batch of reports; together they delete exactly what each of them pushed out. */
    method ProcessIterationMessages(messages: seq<IterationStarted>)
      modifies this`store
      ensures store.Keys == old(store).Keys
      ensures forall code :: code in store ==> store[code] == old(store)[code] - PushedOut(code, messages)
    {
      for i := 0 to |messages|
        invariant store.Keys == old(store).Keys
        invariant forall code :: code in store ==> store[code] == old(store)[code] - PushedOut(code, messages[..i])
      {
        assert messages[..i + 1][..i] == messages[..i];
        DeleteIteration(messages[i]);
      }
      assert messages[..|messages|] == messages;
    }

    /** `after` is what is left of `before` once the outdated tail of `code` is deleted. */
    ghost predicate IsTrimmed(code: Id, before: set<nat>, after: set<nat>) {
      if code !in registry then after == before
      else forall i :: i in after <==>
             i in before && forall n :: n in before ==> IsRetained(registry[code], n, i)
    }

    /** Trims one job to what it retains, and counts the iterations that cost. */
    method DeleteOutdatedIterations(code: Id) returns (deleted: nat)
      requires Valid()
      modifies this`store
      ensures Valid() && store.Keys == old(store).Keys
      ensures forall other :: other in store && other != code ==> store[other] == old(store)[other]
      ensures code in store && (code in registry ==> 0 < registry[code]) ==>
                IsTrimmed(code, old(store)[code], store[code]) && deleted == |old(store)[code]| - |store[code]|
    {
      deleted := 0;
      var newest := FindJobMeta(code);
      if newest.None? {
        return;
      }
      var boundary := RetentionBoundary(code, newest.value);
      if boundary.None? {
        return;
      }
      var outdated := set i | i in store[code] && i <= boundary.value;
      if outdated == {} {
        assert forall i :: i in store[code] ==> i !in outdated;
        return;
      }
      ghost var before := store[code];
      store := store[code := store[code] - outdated];
      assert before == store[code] + outdated;
      assert forall i :: i in before && i in outdated ==> !IsRetained(registry[code], newest.value, i);
      deleted := |outdated|;
    }

    /** Trims the registered jobs one by one, whatever order the registry lists them in. */
    method ReconcileRegistryJobs()
      requires Valid() && forall code :: code in registry ==> MIN_ITERATION_RETENTION <= registry[code]
      modifies this`store
      ensures Valid() && store.Keys == old(store).Keys
      ensures forall code :: code in store ==> IsTrimmed(code, old(store)[code], store[code])
    {
      var left := registry.Keys;
      while left != {}
        invariant left <= registry.Keys && Valid() && store.Keys == old(store).Keys
        invariant forall code :: code in store && code in left ==> store[code] == old(store)[code]
        invariant forall code :: code in store && code !in left ==> IsTrimmed(code, old(store)[code], store[code])
        decreases left
      {
        var code :| code in left;
        left := left - {code};
        var deleted := DeleteOutdatedIterations(code);
      }
    }
  }
}
