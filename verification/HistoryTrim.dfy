/** Time-windowed trimming of state history in bounded batches: a bisecting search that keeps
    its failed probe across ticks. Models crates/xolotl-daemon/src/state_maintenance.rs over the
    trim contract of crates/xolotl-state/src/memory.rs. */
module HistoryTrim {
  import opened Program

  const I64_MIN: int := -0x8000_0000_0000_0000
  const I64_MAX: int := 0x7FFF_FFFF_FFFF_FFFF

  /** A history: the earliest readable time, the times of the kept events, how many events have
      been folded away so far, and how many calls have reached the backend. */
  datatype Log = Log(floor: int, times: seq<int>, folded: nat, calls: nat)

  /** What the backend alone decides: how many events fit one batch once `folded` have been
      folded into the baselines, and which calls fail for reasons of their own. */
  datatype Host = Host(fits: nat -> nat, breaks: nat -> bool)

  datatype Trim = Trimmed(floor: int, events: nat) | OverLimit | Failed

  datatype Settings = Settings(retainFor: nat, maxAttempts: nat, maxBatches: nat)

  datatype Report = Report(target: int, floor: int, attempts: nat, batches: nat, removed: nat, stalled: bool)

  function Clamp(x: int): int { if x < I64_MIN then I64_MIN else if x > I64_MAX then I64_MAX else x }

  /** How many leading events are older than `t`. */
  function Older(times: seq<int>, t: int): (n: nat)
    ensures n <= |times| && (forall k :: 0 <= k < n ==> times[k] < t) && (n < |times| ==> times[n] >= t)
  {
    if times == [] || times[0] >= t then 0
    else
      var n := Older(times[1..], t);
      assert forall k :: 0 < k < n + 1 ==> times[k] == times[1..][k - 1];
      assert n < |times[1..]| ==> times[n + 1] == times[1..][n];
      n + 1
  }

  /** Fold away everything before `floor` in one batch. */
  function TrimBefore(host: Host, log: Log, floor: int): (Log, Trim) {
    var next := log.(calls := log.calls + 1);
    if host.breaks(log.calls) then (next, Failed)
    else if floor <= 0 || floor == I64_MAX || floor < log.floor then (next, Failed)
    else if floor == log.floor then (next, Trimmed(floor, 0))
    else
      var n := Older(log.times, floor);
      if n > host.fits(log.folded) then (next, OverLimit)
      else (next.(floor := floor, times := log.times[n..], folded := log.folded + n), Trimmed(floor, n))
  }

  // ----- one tick -----

  /** The state of the loop: the history, the kept failed probe and the report so far. */
  datatype Work = Work(log: Log, failedAt: Option<int>, report: Report)

  datatype Ended = Ended(work: Work, error: bool)

  function Lower(floor: int): int { Max(floor, 0) }

  predicate Goes(settings: Settings, r: Report) {
    r.attempts < settings.maxAttempts && r.batches < settings.maxBatches && r.floor < r.target
  }

  /** The failed probe has closed in on the millisecond at the floor. */
  predicate Stalls(w: Work) { w.failedAt.Some? && w.failedAt.value <= Lower(w.report.floor) + 1 }

  function Probe(w: Work): int {
    var lower := Lower(w.report.floor);
    if w.failedAt.Some? then lower + (w.failedAt.value - lower) / 2 else w.report.target
  }

  /** What one attempt leaves. */
  function Attempt(host: Host, w: Work): Ended {
    var probe := Probe(w);
    var (log, trim) := TrimBefore(host, w.log, probe);
    var r := w.report.(attempts := w.report.attempts + 1);
    match trim
    case Trimmed(floor, n) =>
      var total := if r.removed + n <= U64_MAX then r.removed + n else U64_MAX;
      Ended(Work(log, if n != 0 || floor >= r.target then None else w.failedAt,
                 r.(floor := floor, removed := total, batches := r.batches + 1)), false)
    case OverLimit => Ended(Work(log, Some(probe), r), false)
    case Failed => Ended(w.(log := log, report := r), true)
  }

  function Search(host: Host, settings: Settings, w: Work): Ended
    decreases settings.maxAttempts - w.report.attempts
  {
    if !Goes(settings, w.report) then Ended(w, false)
    else if Stalls(w) then Ended(w.(report := w.report.(stalled := true)), false)
    else
      var next := Attempt(host, w);
      if next.error then next else Search(host, settings, next.work)
  }

  function Target(settings: Settings, now: int): int { Clamp(now - settings.retainFor) }

  /** The failed probe a tick carries over. */
  function Kept(log: Log, failedAt: Option<int>, target: int): Option<int> {
    if failedAt.Some? && log.floor < failedAt.value <= target then failedAt else None
  }

  /** A whole tick. */
  function Tick(host: Host, settings: Settings, log: Log, failedAt: Option<int>, now: int): Ended {
    var called := log.(calls := log.calls + 1);
    var blank := Report(Target(settings, now), log.floor, 0, 0, 0, false);
    if host.breaks(log.calls) then Ended(Work(called, failedAt, blank), true)
    else if blank.target <= 0 || blank.target <= blank.floor then Ended(Work(called, None, blank), false)
    else Search(host, settings, Work(called, Kept(log, failedAt, blank.target), blank))
  }

  /** The search, one attempt at a time. */
  lemma SearchGoes(host: Host, settings: Settings, w: Work)
    ensures Search(host, settings, w) ==
      if !Goes(settings, w.report) then Ended(w, false)
      else if Stalls(w) then Ended(w.(report := w.report.(stalled := true)), false)
      else var next := Attempt(host, w); if next.error then next else Search(host, settings, next.work)
  {
  }

  // ----- the program -----

  /** The history backend. */
  class Backend {
    var log: Log
    const host: Host

    constructor (host: Host, log: Log)
      ensures this.host == host && this.log == log
    {
      this.host, this.log := host, log;
    }

    method RetainedFrom() returns (floor: Option<int>)
      modifies this
      ensures log == old(log).(calls := old(log).calls + 1)
      ensures floor == if host.breaks(old(log).calls) then None else Some(old(log).floor)
    {
      floor := if host.breaks(log.calls) then None else Some(log.floor);
      log := log.(calls := log.calls + 1);
    }

    method TrimHistoryBefore(floor: int) returns (r: Trim)
      modifies this
      ensures (log, r) == TrimBefore(host, old(log), floor)
    {
      var (next, trim) := TrimBefore(host, log, floor);
      log, r := next, trim;
    }
  }

  /** The search state that outlives a tick. */
  class Memory {
    var failedAt: Option<int>

    constructor ()
      ensures failedAt == None
    {
      failedAt := None;
    }
  }

  /** Trim up to the probe and note what came of it. */
  method TryProbe(state: Backend, search: Memory, before: Report, probe: int) returns (report: Report, error: bool)
    requires probe == Probe(Work(state.log, search.failedAt, before))
    modifies state, search
    ensures Ended(Work(state.log, search.failedAt, report), error) ==
            Attempt(state.host, old(Work(state.log, search.failedAt, before)))
  {
    hide TrimBefore, Probe;
    report, error := before.(attempts := before.attempts + 1), false;
    var trim := state.TrimHistoryBefore(probe);
    match trim
    case Trimmed(floor, events) =>
      report := report.(floor := floor, batches := report.batches + 1,
                        removed := if report.removed + events <= U64_MAX then report.removed + events else U64_MAX);
      if events != 0 || report.floor >= report.target {
        search.failedAt := None;
      }
    case OverLimit => search.failedAt := Some(probe);
    case Failed => error := true;
  }

  method RunSearch(state: Backend, settings: Settings, search: Memory, before: Report)
    returns (report: Report, error: bool)
    modifies state, search
    ensures Ended(Work(state.log, search.failedAt, report), error) ==
            Search(state.host, settings, old(Work(state.log, search.failedAt, before)))
  {
    hide Search, Attempt;
    report := before;
    ghost var whole := Search(state.host, settings, Work(state.log, search.failedAt, report));
    while report.attempts < settings.maxAttempts && report.batches < settings.maxBatches && report.floor < report.target
      invariant Search(state.host, settings, Work(state.log, search.failedAt, report)) == whole
      decreases settings.maxAttempts - report.attempts
    {
      ghost var w := Work(state.log, search.failedAt, report);
      SearchGoes(state.host, settings, w);
      AttemptCounts(state.host, w);
      var lower := Max(report.floor, 0);
      var probe := report.target;
      if search.failedAt.Some? {
        if search.failedAt.value <= lower + 1 {
          return report.(stalled := true), false;
        }
        probe := lower + (search.failedAt.value - lower) / 2;
      }
      report, error := TryProbe(state, search, report, probe);
      if error {
        return report, true;
      }
    }
    SearchGoes(state.host, settings, Work(state.log, search.failedAt, report));
    return report, false;
  }

  lemma AttemptCounts(host: Host, w: Work)
    ensures Attempt(host, w).work.report.attempts == w.report.attempts + 1
    ensures Attempt(host, w).work.report.target == w.report.target
  {
  }

  method MaintainTickAt(state: Backend, settings: Settings, search: Memory, now: int)
    returns (report: Report, error: bool)
    requires I64_MIN <= now <= I64_MAX
    modifies state, search
    ensures Ended(Work(state.log, search.failedAt, report), error) ==
            Tick(state.host, settings, old(state.log), old(search.failedAt), now)
  {
    hide Search;
    var target := Clamp(now - settings.retainFor);
    report := Report(target, state.log.floor, 0, 0, 0, false);
    var floor := state.RetainedFrom();
    if floor.None? {
      return report, true;
    }
    report := report.(floor := floor.value);
    if target <= 0 || target <= report.floor {
      search.failedAt := None;
      return report, false;
    }
    if search.failedAt.Some? && !(report.floor < search.failedAt.value <= target) {
      search.failedAt := None;
    }
    report, error := RunSearch(state, settings, search, report);
  }

  // ----- what a tick keeps -----

  predicate Sorted(times: seq<int>) { forall i, j :: 0 <= i < j < |times| ==> times[i] <= times[j] }

  /** Events are in order and none is older than the floor; a kept failed probe still fails. */
  ghost predicate Good(host: Host, log: Log, failedAt: Option<int>) {
    && Sorted(log.times) && (forall k :: 0 <= k < |log.times| ==> log.times[k] >= log.floor)
    && (failedAt.Some? ==> failedAt.value > 0 && Older(log.times, failedAt.value) > host.fits(log.folded))
  }

  /** The loop's own view: the failed probe lies between the floor and the target. */
  ghost predicate Running(host: Host, w: Work) {
    && Good(host, w.log, w.failedAt) && w.report.floor == w.log.floor && !w.report.stalled
    && 0 < w.report.target < I64_MAX && w.report.floor <= w.report.target
    && (w.failedAt.Some? ==> w.report.floor < w.failedAt.value <= w.report.target)
  }

  lemma ProbeBetween(host: Host, w: Work)
    requires Running(host, w) && w.report.floor < w.report.target && !Stalls(w)
    ensures Lower(w.report.floor) < Probe(w) <= w.report.target
    ensures w.failedAt.Some? ==> Probe(w) < w.failedAt.value
  {
  }

  lemma {:induction false} OlderMore(times: seq<int>, s: int, t: int)
    requires s <= t
    ensures Older(times, s) <= Older(times, t)
  {
    if times != [] && times[0] < s {
      OlderMore(times[1..], s, t);
    }
  }

  lemma {:induction false} OlderDrop(times: seq<int>, n: nat, t: int)
    requires n <= Older(times, t)
    ensures Older(times[n..], t) == Older(times, t) - n
  {
    if n > 0 {
      assert times[1..][n - 1..] == times[n..];
      OlderDrop(times[1..], n - 1, t);
    } else {
      assert times[0..] == times;
    }
  }

  lemma DropKeeps(host: Host, log: Log, floor: int)
    requires Good(host, log, None) && log.floor <= floor
    ensures var n := Older(log.times, floor);
      Good(host, log.(floor := floor, times := log.times[n..], folded := log.folded + n), None)
  {
    var n := Older(log.times, floor);
    forall k | 0 <= k < |log.times[n..]| ensures log.times[n..][k] >= floor {
      assert log.times[n..][k] == log.times[n + k];
    }
  }

  lemma TrimKeeps(host: Host, log: Log, failedAt: Option<int>, probe: int)
    requires Good(host, log, failedAt) && 0 < probe < I64_MAX && log.floor < probe
    ensures var (after, trim) := TrimBefore(host, log, probe);
      && (trim.Failed? <==> host.breaks(log.calls)) && (trim.Failed? ==> after == log.(calls := log.calls + 1))
      && (trim.Failed? ==> Good(host, after, failedAt))
      && (trim.Trimmed? ==> trim.floor == after.floor == probe && Good(host, after, None))
      && (trim.Trimmed? && trim.events == 0 ==> Good(host, after, failedAt))
      && (trim.OverLimit? ==> after.floor == log.floor && Good(host, after, Some(probe)))
  {
    DropKeeps(host, log, probe);
    hide Older;
    assert Older(log.times, probe) == 0 ==> log.times[0..] == log.times;
  }

  /** An attempt moves the floor up to at most the target, or learns a probe that does not fit. */
  lemma AttemptKeeps(host: Host, w: Work)
    requires Running(host, w) && w.report.floor < w.report.target && !Stalls(w)
    ensures var next := Attempt(host, w);
      && next.work.report.floor >= w.report.floor && next.work.report.target == w.report.target
      && (next.error <==> host.breaks(w.log.calls))
      && (next.error ==> next.work.log == w.log.(calls := w.log.calls + 1) && next.work.failedAt == w.failedAt
                         && next.work.report == w.report.(attempts := w.report.attempts + 1))
      && Running(host, next.work)
  {
    ProbeBetween(host, w);
    TrimKeeps(host, w.log, w.failedAt, Probe(w));
    hide Good, TrimBefore, Probe;
  }

  lemma {:induction false} SearchKeeps(host: Host, settings: Settings, w: Work)
    requires Running(host, w)
    ensures var end := Search(host, settings, w);
      && Running(host, end.work.(report := end.work.report.(stalled := false)))
      && end.work.report.floor >= w.report.floor && end.work.report.target == w.report.target
      && (end.work.report.stalled ==> !end.error && Stalls(end.work))
    decreases settings.maxAttempts - w.report.attempts
  {
    if Goes(settings, w.report) && !Stalls(w) {
      AttemptKeeps(host, w);
      hide Attempt, Running;
      var next := Attempt(host, w);
      if !next.error {
        AttemptCounts(host, w);
        SearchKeeps(host, settings, next.work);
      } else {
        StalledNot(host, next.work);
      }
    } else {
      StalledNot(host, w);
      hide Running;
    }
  }

  lemma StalledNot(host: Host, w: Work)
    requires Running(host, w)
    ensures Running(host, w.(report := w.report.(stalled := false))) && !w.report.stalled
  {
  }

  /** A tick never lowers the floor or moves it past the target, and what it keeps of a failed
      probe still does not fit. */
  lemma TickKeeps(host: Host, settings: Settings, log: Log, failedAt: Option<int>, now: int)
    requires Good(host, log, failedAt) && I64_MIN <= now <= I64_MAX && settings.retainFor > 0
    ensures var end := Tick(host, settings, log, failedAt, now);
      && Good(host, end.work.log, end.work.failedAt)
      && end.work.log.floor >= log.floor && end.work.report.floor == end.work.log.floor
      && (end.work.log.floor > log.floor ==> end.work.log.floor <= Target(settings, now))
  {
    var target := Target(settings, now);
    if !host.breaks(log.calls) && target > 0 && target > log.floor {
      var kept := Kept(log, failedAt, target);
      hide Older;
      SearchKeeps(host, settings, Work(log.(calls := log.calls + 1), kept, Report(target, log.floor, 0, 0, 0, false)));
      hide Search;
    }
  }

  /** A stall is reported exactly when the search can go no further below the target, and then
      the events at the single millisecond of the floor are too many for one batch. */
  lemma StallMeans(host: Host, settings: Settings, log: Log, failedAt: Option<int>, now: int)
    requires Good(host, log, failedAt) && I64_MIN <= now <= I64_MAX && settings.retainFor > 0
    ensures var end := Tick(host, settings, log, failedAt, now);
      var r, after := end.work.report, end.work.log;
      && (r.stalled ==> r.floor < r.target && Older(after.times, Lower(r.floor) + 1) > host.fits(after.folded))
      && (r.stalled && r.floor >= 0 ==>
            forall k :: 0 <= k < Older(after.times, r.floor + 1) ==> after.times[k] == r.floor)
      && (!end.error && r.attempts < settings.maxAttempts && r.batches < settings.maxBatches && r.target > 0 ==>
            (r.stalled <==> r.floor < r.target))
  {
    hide Older, Search, Good;
    var target := Target(settings, now);
    if !host.breaks(log.calls) && target > 0 && target > log.floor {
      var kept := Kept(log, failedAt, target);
      var w := Work(log.(calls := log.calls + 1), kept, Report(target, log.floor, 0, 0, 0, false));
      Forgets(host, log, failedAt, w.log, kept);
      SearchKeeps(host, settings, w);
      SearchStops(host, settings, w);
      var end := Search(host, settings, w).work;
      if end.report.stalled {
        StallFacts(host, end.(report := end.report.(stalled := false)));
      }
    }
  }

  lemma Forgets(host: Host, log: Log, failedAt: Option<int>, called: Log, kept: Option<int>)
    requires Good(host, log, failedAt) && called == log.(calls := called.calls) && (kept.None? || kept == failedAt)
    ensures Good(host, called, kept)
  {
  }

  lemma StallFacts(host: Host, w: Work)
    requires Running(host, w) && Stalls(w)
    ensures Older(w.log.times, Lower(w.report.floor) + 1) > host.fits(w.log.folded)
    ensures w.report.floor >= 0 ==>
      forall k :: 0 <= k < Older(w.log.times, w.report.floor + 1) ==> w.log.times[k] == w.report.floor
  {
    hide Older;
    assert w.failedAt.value == Lower(w.report.floor) + 1;
  }

  /** Why a search ends. */
  lemma {:induction false} SearchStops(host: Host, settings: Settings, w: Work)
    requires !w.report.stalled
    ensures var end := Search(host, settings, w);
      && (end.work.report.stalled ==> Goes(settings, end.work.report))
      && (!end.error && Goes(settings, end.work.report) ==> end.work.report.stalled)
    decreases settings.maxAttempts - w.report.attempts
  {
    if Goes(settings, w.report) && !Stalls(w) {
      AttemptStalled(host, w);
      hide Attempt;
      var next := Attempt(host, w);
      if !next.error {
        SearchStops(host, settings, next.work);
      }
    }
  }

  lemma AttemptStalled(host: Host, w: Work)
    ensures Attempt(host, w).work.report.stalled == w.report.stalled
    ensures Attempt(host, w).work.report.attempts == w.report.attempts + 1
  {
  }

  // ----- how many attempts it takes -----

  /** The logarithm of `g` to base two, rounded up. */
  function Log2(g: nat): nat { if g <= 1 then 0 else 1 + Log2((g + 1) / 2) }

  function Pow2(n: nat): nat { if n == 0 then 1 else 2 * Pow2(n - 1) }

  lemma {:induction false} Log2Means(g: nat)
    requires g > 0
    ensures g <= Pow2(Log2(g)) && (g > 1 ==> Pow2(Log2(g) - 1) < g)
  {
    if g > 1 {
      Log2Means((g + 1) / 2);
    }
  }

  lemma {:induction false} Log2More(g: nat, h: nat)
    requires g <= h
    ensures Log2(g) <= Log2(h)
  {
    if g > 1 {
      Log2More((g + 1) / 2, (h + 1) / 2);
    }
  }

  /** Attempts for `n` searches of at most `most` bisections each. */
  function Searches(n: nat, most: nat): nat { n * (1 + most) }

  /** The attempts that may still be needed, when one search takes at most `most` bisections. */
  function Cost(log: Log, failedAt: Option<int>, target: int, most: nat): nat {
    if log.floor >= target then 0
    else
      Searches(Older(log.times, target), most) +
      if failedAt.Some? && Lower(log.floor) < failedAt.value then Log2(failedAt.value - Lower(log.floor)) else 1 + most
  }

  lemma Restart(n: nat, gone: nat, most: nat)
    requires 0 < gone <= n
    ensures Searches(n - gone, most) + (1 + most) <= Searches(n, most)
  {
    assert n * (1 + most) == (n - gone) * (1 + most) + gone * (1 + most);
  }

  lemma TrimPays(host: Host, log: Log, probe: int, target: int)
    requires Sorted(log.times) && 0 < probe < I64_MAX && log.floor < probe <= target
    ensures var (after, trim) := TrimBefore(host, log, probe);
      && (trim.Trimmed? ==>
        Older(after.times, target) + trim.events == Older(log.times, target) && after.floor == probe)
      && (!trim.Trimmed? ==> after == log.(calls := log.calls + 1))
  {
    OlderMore(log.times, probe, target);
    OlderDrop(log.times, Older(log.times, probe), target);
    hide Older;
  }

  /** The attempt has trimmed up to this tick's target, and `last` still lies ahead. */
  predicate Rests(r: Report, last: int) { r.target <= r.floor && r.target < last }

  /** Every attempt pays for itself: it halves the gap, finds a probe that fails, or folds events;
      only a trim to a target short of the last one may be had for nothing. */
  lemma AttemptPays(host: Host, w: Work, last: int, most: nat)
    requires Running(host, w) && w.report.floor < w.report.target <= last && !Stalls(w) && !host.breaks(w.log.calls)
    requires Lower(w.report.floor) < last ==> Log2(last - Lower(w.report.floor)) <= most
    ensures var next := Attempt(host, w).work;
      1 + Cost(next.log, next.failedAt, last, most)
      <= Cost(w.log, w.failedAt, last, most) + if Rests(next.report, last) then 1 else 0
  {
    hide TrimBefore, Good, Older, Log2, Searches;
    ProbeBetween(host, w);
    GoodSorted(host, w.log, w.failedAt);
    TrimPays(host, w.log, Probe(w), last);
    TrimKeeps(host, w.log, w.failedAt, Probe(w));
    var (after, trim) := TrimBefore(host, w.log, Probe(w));
    if w.failedAt.Some? {
      Halves(w.failedAt.value - Lower(w.report.floor));
    }
    Log2More(w.report.target - Lower(w.report.floor), last - Lower(w.report.floor));
    if trim.Trimmed? && trim.events > 0 {
      Restart(Older(w.log.times, last), trim.events, most);
    }
  }

  lemma GoodSorted(host: Host, log: Log, failedAt: Option<int>)
    requires Good(host, log, failedAt)
    ensures Sorted(log.times)
  {
  }

  lemma Halves(gap: int)
    requires gap > 1
    ensures Log2(gap - gap / 2) + 1 == Log2(gap) && Log2(gap / 2) + 1 <= Log2(gap)
  {
    assert gap - gap / 2 == (gap + 1) / 2;
    Log2More(gap / 2, (gap + 1) / 2);
  }

  lemma {:induction false} SearchPays(host: Host, settings: Settings, w: Work, last: int, most: nat)
    requires Running(host, w) && w.report.floor < w.report.target <= last
    requires Lower(w.report.floor) < last ==> Log2(last - Lower(w.report.floor)) <= most
    ensures var end := Search(host, settings, w);
      end.work.report.attempts + Cost(end.work.log, end.work.failedAt, last, most)
      <= w.report.attempts + Cost(w.log, w.failedAt, last, most)
         + (if Rests(end.work.report, last) then 1 else 0) + if end.error then 1 else 0
    decreases settings.maxAttempts - w.report.attempts
  {
    hide Attempt, Cost, Running, Log2, Search, Lower;
    SearchGoes(host, settings, w);
    if Goes(settings, w.report) {
      if Stalls(w) {
      } else {
        AttemptKeeps(host, w);
        AttemptCounts(host, w);
        var next := Attempt(host, w);
        if next.error {
          CallsFree(w.log, w.failedAt, last, most, next.work.log);
        } else {
          AttemptPays(host, w, last, most);
          if next.work.report.floor < w.report.target {
            GapKept(next.work.report.floor, w.report.floor, last, most);
            SearchPays(host, settings, next.work, last, most);
          } else {
            SearchGoes(host, settings, next.work);
          }
        }
      }
    }
  }

  lemma CallsFree(log: Log, failedAt: Option<int>, target: int, most: nat, after: Log)
    requires after == log.(calls := after.calls)
    ensures Cost(after, failedAt, target, most) == Cost(log, failedAt, target, most)
  {
  }

  lemma GapKept(floor: int, before: int, last: int, most: nat)
    requires before <= floor && (Lower(before) < last ==> Log2(last - Lower(before)) <= most)
    ensures Lower(floor) < last ==> Log2(last - Lower(floor)) <= most
  {
    if Lower(floor) < last {
      Log2More(last - Lower(floor), last - Lower(before));
    }
  }

  lemma SearchesAdd(n: nat, m: nat, most: nat)
    ensures Searches(n + m, most) == Searches(n, most) + Searches(m, most)
  {
  }

  // ----- many ticks -----

  /** A tick pays for its attempts, towards a last target that may lie ahead of its own; what is
      left is counted with the failed probe as the next tick, whose target is `next`, keeps it. A
      target that moves back may cost the probe. */
  lemma TickPays(host: Host, settings: Settings, log: Log, failedAt: Option<int>, now: int, next: int, last: int,
      most: nat)
    requires Good(host, log, failedAt) && I64_MIN <= now <= I64_MAX && settings.retainFor > 0
    requires Target(settings, now) <= last && next <= last
    requires Lower(log.floor) < last ==> Log2(last - Lower(log.floor)) <= most
    ensures var end := Tick(host, settings, log, failedAt, now);
      end.work.report.attempts + Cost(end.work.log, Kept(end.work.log, end.work.failedAt, next), last, most)
         <= Cost(log, Kept(log, failedAt, Target(settings, now)), last, most) +
           Searches(Back(Target(settings, now), next), most)
            + (if Rests(end.work.report, last) then 1 else 0) + if end.error then 1 else 0
  {
    var target, end := Target(settings, now), Tick(host, settings, log, failedAt, now);
    TickPaysHere(host, settings, log, failedAt, now, last, most);
    TickKeeps(host, settings, log, failedAt, now);
    GapKept(end.work.log.floor, log.floor, last, most);
    hide Tick, Good;
    ProbeLost(end.work.log, end.work.failedAt, target, next, last, most);
  }

  /** Whether the target moves back. */
  function Back(target: int, next: int): nat { if next < target then 1 else 0 }

  lemma TickPaysHere(host: Host, settings: Settings, log: Log, failedAt: Option<int>, now: int, last: int, most: nat)
    requires Good(host, log, failedAt) && I64_MIN <= now <= I64_MAX && settings.retainFor > 0
    requires Target(settings, now) <= last
    requires Lower(log.floor) < last ==> Log2(last - Lower(log.floor)) <= most
    ensures var target, end := Target(settings, now), Tick(host, settings, log, failedAt, now);
      end.work.report.attempts + Cost(end.work.log, Kept(end.work.log, end.work.failedAt, target), last, most)
         <= Cost(log, Kept(log, failedAt, target), last, most)
            + (if Rests(end.work.report, last) then 1 else 0) + if end.error then 1 else 0
  {
    hide Search, Older, Log2, Searches;
    var target, called := Target(settings, now), log.(calls := log.calls + 1);
    if !host.breaks(log.calls) && 0 < target && log.floor < target {
      var w := Work(called, Kept(log, failedAt, target), Report(target, log.floor, 0, 0, 0, false));
      hide Cost;
      CallsFree(log, w.failedAt, last, most, called);
      SearchKeeps(host, settings, w);
      SearchPays(host, settings, w, last, most);
    }
  }

  /** Another target may lose the failed probe, but only if it is an earlier one. */
  lemma ProbeLost(log: Log, failedAt: Option<int>, target: int, next: int, last: int, most: nat)
    requires next <= last && (Lower(log.floor) < last ==> Log2(last - Lower(log.floor)) <= most)
    ensures Cost(log, Kept(log, failedAt, next), last, most)
         <= Cost(log, Kept(log, failedAt, target), last, most) + Searches(Back(target, next), most)
  {
    hide Older, Log2;
    if failedAt.Some? && Lower(log.floor) < failedAt.value <= last {
      Log2More(failedAt.value - Lower(log.floor), last - Lower(log.floor));
    }
  }

  /** Events written between two ticks: in order, and not before the floor. */
  predicate Recent(log: Log, writes: seq<int>) {
    Sorted(log.times + writes) && forall k :: 0 <= k < |writes| ==> writes[k] >= log.floor
  }

  function Written(log: Log, writes: seq<int>): Log { log.(times := log.times + writes) }

  lemma {:induction false} OlderWritten(times: seq<int>, writes: seq<int>, t: int)
    requires Sorted(times + writes)
    ensures Older(times + writes, t) == Older(times, t) + Older(writes, t)
  {
    if times == [] {
      assert times + writes == writes;
    } else if times[0] < t {
      assert (times + writes)[1..] == times[1..] + writes;
      OlderWritten(times[1..], writes, t);
    } else {
      assert forall k :: 0 <= k < |writes| ==> writes[k] == (times + writes)[|times| + k];
    }
  }

  /** Writes leave a failed probe failing, and add what they may cost. */
  lemma WrittenKeeps(host: Host, log: Log, failedAt: Option<int>, writes: seq<int>)
    requires Good(host, log, failedAt) && Recent(log, writes)
    ensures Good(host, Written(log, writes), failedAt)
  {
    if failedAt.Some? {
      OlderWritten(log.times, writes, failedAt.value);
    }
    hide Older;
  }

  lemma WrittenCosts(log: Log, failedAt: Option<int>, writes: seq<int>, last: int, most: nat)
    requires Recent(log, writes)
    ensures Cost(Written(log, writes), failedAt, last, most) <=
      Cost(log, failedAt, last, most) + Searches(Older(writes, last), most)
  {
    hide Older, Log2, Searches, Sorted, Lower;
    OlderWritten(log.times, writes, last);
    SearchesAdd(Older(log.times, last), Older(writes, last), most);
  }

  /** A tick and the events written before it. */
  datatype Visit = Visit(now: int, writes: seq<int>)

  /** Any ticks at any times, with any events written in order in between. */
  ghost predicate Visits(host: Host, settings: Settings, log: Log, failedAt: Option<int>, visits: seq<Visit>)
    decreases |visits|
  {
    visits == [] ||
    (var v := visits[0];
     && I64_MIN <= v.now <= I64_MAX && Recent(log, v.writes)
     && var end := Tick(host, settings, Written(log, v.writes), failedAt, v.now).work;
        Visits(host, settings, end.log, end.failedAt, visits[1..]))
  }

  /** What the visits leave. */
  function Visited(host: Host, settings: Settings, log: Log, failedAt: Option<int>,
      visits: seq<Visit>): (Log, Option<int>)
    decreases |visits|
  {
    if visits == [] then (log, failedAt)
    else
      var end := Tick(host, settings, Written(log, visits[0].writes), failedAt, visits[0].now).work;
      Visited(host, settings, end.log, end.failedAt, visits[1..])
  }

  /** Over any series of ticks the floor never moves back, and a kept failed probe keeps failing. */
  lemma {:induction false} VisitsKeep(host: Host, settings: Settings, log: Log, failedAt: Option<int>,
      visits: seq<Visit>)
    requires Good(host, log, failedAt) && settings.retainFor > 0 && Visits(host, settings, log, failedAt, visits)
    ensures var (after, kept) := Visited(host, settings, log, failedAt, visits);
      after.floor >= log.floor && Good(host, after, kept)
    decreases |visits|
  {
    hide Tick, Good, Recent;
    if visits != [] {
      var v := visits[0];
      WrittenKeeps(host, log, failedAt, v.writes);
      TickKeeps(host, settings, Written(log, v.writes), failedAt, v.now);
      var end := Tick(host, settings, Written(log, v.writes), failedAt, v.now).work;
      VisitsKeep(host, settings, end.log, end.failedAt, visits[1..]);
    }
  }

  // What the visits add up to: attempts, ticks that the backend failed, and ticks that came to
  // rest at a target short of the last one.

  function Attempts(host: Host, settings: Settings, log: Log, failedAt: Option<int>, visits: seq<Visit>): nat
    decreases |visits|
  {
    if visits == [] then 0
    else
      var end := Tick(host, settings, Written(log, visits[0].writes), failedAt, visits[0].now).work;
      end.report.attempts + Attempts(host, settings, end.log, end.failedAt, visits[1..])
  }

  function Errors(host: Host, settings: Settings, log: Log, failedAt: Option<int>, visits: seq<Visit>): nat
    decreases |visits|
  {
    if visits == [] then 0
    else
      var end := Tick(host, settings, Written(log, visits[0].writes), failedAt, visits[0].now);
      (if end.error then 1 else 0) + Errors(host, settings, end.work.log, end.work.failedAt, visits[1..])
  }

  function Resting(host: Host, settings: Settings, log: Log, failedAt: Option<int>, visits: seq<Visit>,
      last: int): (n: nat)
    ensures n <= |visits|
    decreases |visits|
  {
    if visits == [] then 0
    else
      var end := Tick(host, settings, Written(log, visits[0].writes), failedAt, visits[0].now).work;
      (if Rests(end.report, last) then 1 else 0) + Resting(host, settings, end.log, end.failedAt, visits[1..], last)
  }

  /** The events older than `last` that are written before one of the visits. */
  function Arriving(visits: seq<Visit>, last: int): nat {
    if visits == [] then 0 else Older(visits[0].writes, last) + Arriving(visits[1..], last)
  }

  /** No visit aims past `last`. */
  predicate Upto(settings: Settings, visits: seq<Visit>, last: int) {
    forall i :: 0 <= i < |visits| ==> Target(settings, visits[i].now) <= last
  }

  /** How often the target moves back from one visit to the next: never while the clock does not
      run backwards. */
  function Setbacks(settings: Settings, visits: seq<Visit>): nat {
    if |visits| < 2 then 0
    else Back(Target(settings, visits[0].now), Target(settings, visits[1].now)) + Setbacks(settings, visits[1..])
  }

  lemma {:induction false} NoSetbacks(settings: Settings, visits: seq<Visit>)
    requires forall i, j :: 0 <= i < j < |visits| ==> visits[i].now <= visits[j].now
    ensures Setbacks(settings, visits) == 0
    ensures visits != [] ==> Upto(settings, visits, Target(settings, visits[|visits| - 1].now))
  {
    if |visits| >= 2 {
      NoSetbacks(settings, visits[1..]);
    }
  }

  /** The target of the next visit. */
  function Aim(settings: Settings, visits: seq<Visit>, last: int): int {
    if visits == [] then last else Target(settings, visits[0].now)
  }

  lemma {:induction false} VisitsPay(
    host: Host, settings: Settings, log: Log, failedAt: Option<int>, visits: seq<Visit>, last: int, most: nat)
    requires Good(host, log, failedAt) && settings.retainFor > 0 && Visits(host, settings, log, failedAt, visits)
    requires Upto(settings, visits, last) && (Lower(log.floor) < last ==> Log2(last - Lower(log.floor)) <= most)
    ensures Attempts(host, settings, log, failedAt, visits)
         <= Cost(log, Kept(log, failedAt, Aim(settings, visits, last)), last, most)
            + Searches(Arriving(visits, last) + Setbacks(settings, visits), most)
            + Resting(host, settings, log, failedAt, visits, last) + Errors(host, settings, log, failedAt, visits)
    decreases |visits|
  {
    hide Tick, Good, Cost, Log2, Recent, Searches, Older, Kept, Lower, Target, Rests;
    if visits != [] {
      var v, rest := visits[0], visits[1..];
      var more := Written(log, v.writes);
      var next := Aim(settings, rest, last);
      WrittenKeeps(host, log, failedAt, v.writes);
      WrittenCosts(log, Kept(log, failedAt, Target(settings, v.now)), v.writes, last, most);
      KeptWritten(log, failedAt, v.writes, Target(settings, v.now));
      TickKeeps(host, settings, more, failedAt, v.now);
      TickPays(host, settings, more, failedAt, v.now, next, last, most);
      var end := Tick(host, settings, more, failedAt, v.now).work;
      GapKept(end.log.floor, log.floor, last, most);
      VisitsPay(host, settings, end.log, end.failedAt, rest, last, most);
      var n, b := Older(v.writes, last), Back(Target(settings, v.now), next);
      var late := Arriving(rest, last) + Setbacks(settings, rest);
      assert Arriving(visits, last) + Setbacks(settings, visits) == n + (b + late);
      SearchesAdd(n, b + late, most);
      SearchesAdd(b, late, most);
    }
  }

  lemma KeptWritten(log: Log, failedAt: Option<int>, writes: seq<int>, target: int)
    ensures Kept(Written(log, writes), failedAt, target) == Kept(log, failedAt, target)
  {
  }

  /** The milliseconds between the floor and a target ahead of it. */
  function Window(floor: int, target: int): nat { if Lower(floor) < target then target - Lower(floor) else 0 }

  /** Every event older than `last` that the visits may have to fold: those kept at first and those
      written on the way. */
  function Removable(log: Log, visits: seq<Visit>, last: int): nat { Older(log.times, last) + Arriving(visits, last) }

  /** Over any ticks at any times, with events written in between, the `n` events older than the
      latest target `w` milliseconds ahead take at most `(n + 1) * (1 + ceil(log2 w))` attempts, one
      more for every tick that came to rest at an earlier target, one for every tick that the backend
      failed, and another search for every time the target moved back. */
  lemma AttemptsBounded(host: Host, settings: Settings, log: Log, failedAt: Option<int>, visits: seq<Visit>, last: int)
    requires Good(host, log, failedAt) && settings.retainFor > 0 && Visits(host, settings, log, failedAt, visits)
    requires Upto(settings, visits, last)
    ensures Attempts(host, settings, log, failedAt, visits)
         <= (Removable(log, visits, last) + Setbacks(settings, visits) + 1) * (1 + Log2(Window(log.floor, last)))
            + Resting(host, settings, log, failedAt, visits, last) + Errors(host, settings, log, failedAt, visits)
    ensures Resting(host, settings, log, failedAt, visits, last) <= |visits|
  {
    hide Attempts, Errors, Resting, Good, Visits, Older, Log2, Cost, Arriving, Setbacks;
    var most := Log2(Window(log.floor, last));
    VisitsPay(host, settings, log, failedAt, visits, last, most);
    CostCap(log, Kept(log, failedAt, Aim(settings, visits, last)), last, most);
    var n, late := Older(log.times, last), Arriving(visits, last) + Setbacks(settings, visits);
    assert Removable(log, visits, last) + Setbacks(settings, visits) + 1 == (n + late) + 1;
    SearchesAdd(n, late, most);
    SearchesAdd(n + late, 1, most);
  }

  /** While the clock does not run backwards: at most `(n + 1) * (1 + ceil(log2 w))` attempts towards
      the target of the last tick, plus one for each tick and one for each that the backend failed. */
  lemma AttemptsOnward(host: Host, settings: Settings, log: Log, failedAt: Option<int>, visits: seq<Visit>)
    requires Good(host, log, failedAt) && settings.retainFor > 0 && Visits(host, settings, log, failedAt, visits)
    requires visits != [] && forall i, j :: 0 <= i < j < |visits| ==> visits[i].now <= visits[j].now
    ensures var last := Target(settings, visits[|visits| - 1].now);
      Attempts(host, settings, log, failedAt, visits)
      <= (Removable(log, visits, last) + 1) * (1 + Log2(Window(log.floor, last)))
         + |visits| + Errors(host, settings, log, failedAt, visits)
  {
    hide Attempts, Errors, Resting, Good, Visits, Removable, Log2, Setbacks, Upto, Target;
    NoSetbacks(settings, visits);
    AttemptsBounded(host, settings, log, failedAt, visits, Target(settings, visits[|visits| - 1].now));
  }

  lemma CostCap(log: Log, kept: Option<int>, last: int, most: nat)
    requires most == Log2(Window(log.floor, last)) && (kept.Some? ==> kept.value <= last)
    ensures Cost(log, kept, last, most) <= Searches(Older(log.times, last), most) + (1 + most)
  {
    var lower := Lower(log.floor);
    if kept.Some? && lower < kept.value {
      Log2More(kept.value - lower, last - lower);
    }
    hide Older, Log2;
  }

  /** Every one of these ticks ends without error, short of its own target and without a stall. */
  ghost predicate Dragging(host: Host, settings: Settings, log: Log, failedAt: Option<int>, visits: seq<Visit>)
    decreases |visits|
  {
    visits == [] ||
    (var end := Tick(host, settings, Written(log, visits[0].writes), failedAt, visits[0].now);
     && !end.error && !end.work.report.stalled
     && 0 < end.work.report.target && end.work.report.floor < end.work.report.target
     && Dragging(host, settings, end.work.log, end.work.failedAt, visits[1..]))
  }

  /** A tick that is allowed to work works, unless it is finished or stalled. */
  lemma TickWorks(host: Host, settings: Settings, log: Log, failedAt: Option<int>, now: int)
    requires settings.maxAttempts > 0 && settings.maxBatches > 0
    ensures var end := Tick(host, settings, log, failedAt, now);
      !end.error && !end.work.report.stalled && 0 < end.work.report.target && log.floor < end.work.report.target ==>
        end.work.report.attempts > 0
  {
    var target := Target(settings, now);
    if !host.breaks(log.calls) && target > 0 && target > log.floor {
      var w := Work(log.(calls := log.calls + 1), Kept(log, failedAt, target),
        Report(target, log.floor, 0, 0, 0, false));
      SearchGoes(host, settings, w);
      AttemptCounts(host, w);
      hide Search, Attempt;
      SearchCounts(host, settings, Attempt(host, w).work);
    }
  }

  lemma {:induction false} SearchCounts(host: Host, settings: Settings, w: Work)
    ensures Search(host, settings, w).work.report.attempts >= w.report.attempts
    decreases settings.maxAttempts - w.report.attempts
  {
    if Goes(settings, w.report) && !Stalls(w) {
      AttemptCounts(host, w);
      hide Attempt;
      var next := Attempt(host, w);
      if !next.error {
        SearchCounts(host, settings, next.work);
      }
    }
  }

  lemma {:induction false} DraggingWorks(
    host: Host, settings: Settings, log: Log, failedAt: Option<int>, visits: seq<Visit>, last: int)
    requires Good(host, log, failedAt) && settings.retainFor > 0 && settings.maxAttempts > 0 && settings.maxBatches > 0
    requires Visits(host, settings, log, failedAt, visits) && Dragging(host, settings, log, failedAt, visits)
    ensures |visits| <= Attempts(host, settings, log, failedAt, visits)
    ensures Errors(host, settings, log, failedAt, visits) == 0
      && Resting(host, settings, log, failedAt, visits, last) == 0
    decreases |visits|
  {
    hide Tick, Good, Recent;
    if visits != [] {
      var v := visits[0];
      var more := Written(log, v.writes);
      WrittenKeeps(host, log, failedAt, v.writes);
      TickKeeps(host, settings, more, failedAt, v.now);
      TickWorks(host, settings, more, failedAt, v.now);
      var end := Tick(host, settings, more, failedAt, v.now).work;
      DraggingWorks(host, settings, end.log, end.failedAt, visits[1..], last);
    }
  }

  /** With a working backend, some tick reaches its target or reports a stall within that many ticks. */
  lemma CatchesUp(host: Host, settings: Settings, log: Log, failedAt: Option<int>, visits: seq<Visit>, last: int)
    requires Good(host, log, failedAt) && settings.retainFor > 0 && settings.maxAttempts > 0 && settings.maxBatches > 0
    requires Visits(host, settings, log, failedAt, visits) && Dragging(host, settings, log, failedAt, visits)
    requires Upto(settings, visits, last)
    ensures |visits| <=
      (Removable(log, visits, last) + Setbacks(settings, visits) + 1) * (1 + Log2(Window(log.floor, last)))
  {
    hide Good, Visits, Dragging, Attempts, Errors, Resting, Removable, Log2, Upto, Setbacks;
    DraggingWorks(host, settings, log, failedAt, visits, last);
    AttemptsBounded(host, settings, log, failedAt, visits, last);
  }
}
