/** The round-robin scan, and what a blocked machine is blocked on. */
module Scheduling {
  import opened Program
  import opened Machine
  import opened Stacks
  import opened Forest
  import opened Runs
  import opened Indices

  /** Slot `x` is reached before slot `y` when scanning round from `cursor`. */
  predicate Before(cursor: nat, x: nat, y: nat) {
    || (x >= cursor && y < cursor)
    || ((x >= cursor <==> y >= cursor) && x < y)
  }

  /** How far slot `i` is from the cursor in a ring of `n` slots. */
  function Distance(cursor: nat, n: nat, i: nat): nat
    requires cursor < n && i < n
  {
    if i >= cursor then i - cursor else i + n - cursor
  }

  lemma DistanceHits(cursor: nat, n: nat, i: nat)
    requires cursor < n && i < n
    ensures Distance(cursor, n, i) < n && (cursor + Distance(cursor, n, i)) % n == i
  {
    Wraps(cursor + Distance(cursor, n, i), n);
  }

  lemma OffsetLands(cursor: nat, n: nat, offset: nat)
    requires cursor < n && offset < n
    ensures (cursor + offset) % n < n && Distance(cursor, n, (cursor + offset) % n) == offset
  {
    Wraps(cursor + offset, n);
  }

  /** The scan stops at the nearest slot that is not skipped, or finds none at all. */
  lemma {:induction false} ScanNearest(tasks: seq<Task>, cursor: nat, offset: nat)
    requires cursor < |tasks|
    ensures var r := Scan(tasks, cursor, offset);
      forall i :: 0 <= i < |tasks| && offset <= Distance(cursor, |tasks|, i) && Look(tasks, i) != Skip ==>
        r.Some? && Distance(cursor, |tasks|, r.value) <= Distance(cursor, |tasks|, i)
    ensures var r := Scan(tasks, cursor, offset);
      r.Some? ==> offset <= Distance(cursor, |tasks|, r.value)
    decreases |tasks| - offset
  {
    var n := |tasks|;
    forall i | 0 <= i < n ensures Distance(cursor, n, i) < n {
      DistanceHits(cursor, n, i);
    }
    if offset < n {
      OffsetLands(cursor, n, offset);
      var here := (cursor + offset) % n;
      if Look(tasks, here) == Skip {
        ScanNearest(tasks, cursor, offset + 1);
        forall i | 0 <= i < n && offset <= Distance(cursor, n, i) && Look(tasks, i) != Skip
          ensures offset + 1 <= Distance(cursor, n, i)
        {
          DistanceHits(cursor, n, i);
        }
      }
    }
  }

  /** The picked slot is the first one in scan order that the scheduler may act on. */
  lemma ScanFirst(tasks: seq<Task>, cursor: nat)
    requires cursor < |tasks|
    ensures var r := Scan(tasks, cursor, 0);
      && (r.None? <==> forall i :: 0 <= i < |tasks| ==> Look(tasks, i) == Skip)
      && (r.Some? ==> forall i :: 0 <= i < |tasks| && Look(tasks, i) != Skip && i != r.value ==>
        Before(cursor, r.value, i))
  {
    ScanNearest(tasks, cursor, 0);
  }

  // ----- deadlock freedom -----

  /** A live subtree in which nothing may run holds a task waiting for its host. */
  lemma {:induction false} SkippedSubtreeWaits(tasks: seq<Task>, tree: Tree, parent: Option<nat>, inherited: nat)
    returns (w: nat)
    requires Shape(tasks, tree, parent, inherited)
    requires forall i :: 0 <= i < |tasks| ==> Look(tasks, i) == Skip
    requires !Terminal(tasks[tree.id].state)
    ensures w in Ids(tree) && w < |tasks| && tasks[w].state.Waiting? && !CancelsHere(tasks[w])
  {
    var i := tree.id;
    match tree
    case Solo(_) =>
      assert Look(tasks, i) == Skip;
      w := i;
    case Pair(_, l, r) =>
      var j := tasks[i].state.pair;
      assert Look(tasks, i) == Skip && !JoinReady(tasks, j);
      if tasks[l.id].state.Done? {
        w := SkippedSubtreeWaits(tasks, r, Some(i), tasks[i].cleaning);
      } else {
        w := SkippedSubtreeWaits(tasks, l, Some(i), tasks[i].cleaning);
      }
  }

  lemma BlockedScan(s: Setting, m: Machine, layout: seq<FrameKind>)
    requires |m.tasks| > 0
    ensures Schedule(s, m, layout).out == Some(Blocked) ==>
      Scan(m.tasks, m.cursor, 0).None? && Schedule(s, m, layout).m == m
  {
  }

  /** `advance` reports that it is blocked only while some task holds a live ticket. */
  lemma BlockedWaits(s: Setting, m: Machine, tree: Tree, layout: seq<FrameKind>) returns (w: nat)
    requires Inv(s, m, tree) && Iterate(s, m, layout).out == Some(Blocked)
    ensures var n := Iterate(s, m, layout).m;
      w < |n.tasks| && n.tasks[w].state.Waiting? && Pending(n, w, n.tasks[w].state.ticket)
  {
    var n := if QuotaSpent(m) then Cancel(m) else m;
    CancelKeeps(s, m, tree);
    BlockedScan(s, n, layout);
    hide CleanedIn, Occupied, Schedule;
    ScanFirst(n.tasks, n.cursor);
    w := SkippedSubtreeWaits(n.tasks, tree, None, 0);
  }
}
