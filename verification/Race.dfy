/** A race returns the result of the branch that was done first. */
module Race {
  import opened Program
  import opened Machine
  import opened Stacks
  import opened Forest
  import opened Runs
  import opened Scheduling
  import opened Indices

  /** Branches live in neighbouring slots: an odd one and the next, both free or both taken. */
  ghost predicate Paired(tasks: seq<Task>) {
    && (forall a: nat :: PairAt(tasks, a))
    && (forall p :: 0 <= p < |tasks| && tasks[p].state.Joining? ==> Neighbours(tasks[p].state.pair))
  }

  predicate PairAt(tasks: seq<Task>, a: nat) {
    a % 2 == 1 && a < |tasks| ==>
      if a + 1 < |tasks| then tasks[a].state.Free? <==> tasks[a + 1].state.Free? else tasks[a].state.Free?
  }

  predicate Neighbours(j: JoinState) { j.left % 2 == 1 && j.right == j.left + 1 }

  /** In the race of `p` the right branch is done and the left one is still running freely. */
  predicate RightLeads(tasks: seq<Task>, p: nat) {
    && p < |tasks| && tasks[p].state.Joining? && tasks[p].state.pair.join.Race?
    && DoneAt(tasks, tasks[p].state.pair.right)
    && tasks[p].state.pair.left < |tasks|
    && !tasks[tasks[p].state.pair.left].state.Done? && !tasks[tasks[p].state.pair.left].cancelled
  }

  /** Then the scheduler comes to `p` before it comes to the left branch. */
  predicate Ordered(m: Machine, p: nat) {
    RightLeads(m.tasks, p) ==> Before(m.cursor, p, m.tasks[p].state.pair.left)
  }

  /** The same task, except that it may have been cancelled. */
  ghost predicate Kept(t: Task, u: Task) { u == t.(cancelled := u.cancelled) && (t.cancelled ==> u.cancelled) }

  // ----- the cursor -----

  /** Stepping past `x`, which comes before `y`, keeps `y` before `z`. */
  lemma CursorPasses(cursor: nat, n: nat, x: nat, y: nat, z: nat)
    requires cursor < n && x < n && y < n && z < n && Before(cursor, x, y) && Before(cursor, y, z)
    ensures Before((x + 1) % n, y, z)
  {
    Wraps(x + 1, n);
  }

  /** Just after the right branch has run, the parent comes before the left branch. */
  lemma CursorAfterRight(n: nat, p: nat, left: nat)
    requires p < n && left + 1 < n && p != left && p != left + 1
    ensures Before((left + 2) % n, p, left)
  {
    Wraps(left + 2, n);
  }

  // ----- one transition -----

  /** The task a transition frees because its parent has joined. */
  predicate Joined(tasks: seq<Task>, x: nat, k: nat) {
    && x < |tasks| && tasks[x].state.Joining? && BothDone(tasks, tasks[x].state.pair)
    && (k == tasks[x].state.pair.left || k == tasks[x].state.pair.right)
  }

  lemma JoinKeepsOthers(s: Setting, m: Machine, tree: Tree, x: nat, k: nat)
    requires Inv(s, m, tree) && x in Ids(tree) && x < |m.tasks| && m.tasks[x].state.Joining?
    requires k < |m.tasks| && k != x && !Joined(m.tasks, x, k)
    ensures |JoinStep(s, m, x).m.tasks| == |m.tasks| && Kept(m.tasks[k], JoinStep(s, m, x).m.tasks[k])
  {
    JoinEffect(s, m, tree, x);
    RacedMarks(m.tasks, m.tasks[x].state.pair);
    hide JoinStep, Inv, Raced, Conclude;
  }

  lemma RacedMarks(tasks: seq<Task>, j: JoinState)
    ensures forall k :: 0 <= k < |tasks| ==> Kept(tasks[k], Raced(tasks, j)[k])
  {
  }

  lemma LiveIn(s: Setting, m: Machine, tree: Tree, k: nat)
    requires Inv(s, m, tree) && k in Ids(tree) && k < |m.tasks|
    ensures !m.tasks[k].state.Free? && Shape(m.tasks, tree, None, 0) && Distinct(tree)
  {
  }

  /** A transition of `x` leaves other live tasks alone. */
  lemma Undisturbed(s: Setting, m: Machine, tree: Tree, x: nat, k: nat)
    requires Inv(s, m, tree) && x in Ids(tree) && x < |m.tasks|
    requires k in Ids(tree) && k < |m.tasks| && k != x && !Joined(m.tasks, x, k)
    ensures |Transition(s, m, x).m.tasks| == |m.tasks| && Kept(m.tasks[k], Transition(s, m, x).m.tasks[k])
    ensures Transition(s, m, x).m.cursor == m.cursor
  {
    LiveIn(s, m, tree, k);
    if m.tasks[x].state.Ready? || m.tasks[x].state.Returning? {
      hide Inv, Transition;
      RunsAs(s, m, tree, x);
    } else if m.tasks[x].state.Joining? {
      hide Inv, JoinStep, Raced, Conclude;
      JoinKeepsOthers(s, m, tree, x, k);
      JoinEffect(s, m, tree, x);
    }
  }

  /** After its own transition a racing task never has an unfinished left branch left to cancel. */
  lemma NoLeadAfterOwn(s: Setting, m: Machine, tree: Tree, x: nat)
    requires Inv(s, m, tree) && x in Ids(tree) && x < |m.tasks|
    ensures !RightLeads(Transition(s, m, x).m.tasks, x)
  {
    if m.tasks[x].state.Joining? {
      JoinNoLead(s, m, tree, x);
    } else if m.tasks[x].state.Ready? || m.tasks[x].state.Returning? {
      LiveIn(s, m, tree, x);
      hide Inv, Transition;
      RunsAs(s, m, tree, x);
    }
  }

  lemma JoinNoLead(s: Setting, m: Machine, tree: Tree, x: nat)
    requires Inv(s, m, tree) && x in Ids(tree) && x < |m.tasks| && m.tasks[x].state.Joining?
    ensures !RightLeads(JoinStep(s, m, x).m.tasks, x)
  {
    hide Inv, JoinStep, Raced, Conclude, Shape, CleanedIn, Merged;
    LiveIn(s, m, tree, x);
    ChildrenIn(m.tasks, tree, x);
    JoinEffect(s, m, tree, x);
    RacedCancels(m.tasks, m.tasks[x].state.pair);
  }

  lemma RacedCancels(tasks: seq<Task>, j: JoinState)
    requires j.left < |tasks| && j.right < |tasks|
    ensures j.join.Race? && DoneAt(tasks, j.right) && !DoneAt(tasks, j.left) ==> Raced(tasks, j)[j.left].cancelled
  {
  }

  // ----- neighbouring slots -----

  /** The first two free slots are neighbours. */
  lemma FreeNeighbours(tasks: seq<Task>, a: nat, b: nat)
    requires Paired(tasks) && |tasks| > 0 && !tasks[0].state.Free?
    requires FirstFree(tasks, 0) == Some(a) && FirstFree(tasks, a + 1) == Some(b)
    ensures a % 2 == 1 && b == a + 1
  {
    assert a > 0 && PairAt(tasks, a - 1) && PairAt(tasks, a);
  }

  /** Slots keep their pairing when each keeps being free or taken and no join is new. */
  lemma SamePairs(tasks: seq<Task>, other: seq<Task>)
    requires Paired(tasks) && |other| == |tasks|
    requires forall k :: 0 <= k < |tasks| ==> (other[k].state.Free? <==> tasks[k].state.Free?)
    requires forall k :: 0 <= k < |tasks| && other[k].state.Joining? ==> tasks[k].state == other[k].state
    ensures Paired(other)
  {
    forall a: nat ensures PairAt(other, a) {
      assert PairAt(tasks, a);
    }
  }

  lemma ForkPairs(m: Machine, x: nat, n: Machine, a: nat, b: nat)
    requires Paired(m.tasks) && ForkedAt(m, x, n, a, b) && !m.tasks[0].state.Free? && !m.tasks[x].state.Free?
    ensures Paired(n.tasks)
  {
    FreeNeighbours(m.tasks, a, b);
    hide FirstFree;
    assert Neighbours(n.tasks[x].state.pair);
    forall k: nat ensures PairAt(n.tasks, k) {
      assert PairAt(m.tasks, k);
    }
  }

  lemma JoinPairs(s: Setting, m: Machine, tree: Tree, x: nat)
    requires Inv(s, m, tree) && x in Ids(tree) && x < |m.tasks| && m.tasks[x].state.Joining? && Paired(m.tasks)
    ensures Paired(JoinStep(s, m, x).m.tasks)
  {
    hide Inv, JoinStep, Raced, Conclude, Shape, CleanedIn, Merged, Paired;
    LiveIn(s, m, tree, x);
    ChildrenIn(m.tasks, tree, x);
    JoinEffect(s, m, tree, x);
    var j := m.tasks[x].state.pair;
    SamePairs(m.tasks, Raced(m.tasks, j));
    if BothDone(m.tasks, j) {
      var l := Conclude(s, Raced(m.tasks, j)[x], j.node, Merged(s.h, m.tasks, j));
      MergePairs(Raced(m.tasks, j), x, j, Idle(m.limits.bindingsPerTask), l.task);
    }
  }

  lemma MergePairs(tasks: seq<Task>, x: nat, j: JoinState, idle: Task, u: Task)
    requires Paired(tasks) && x < |tasks| && tasks[x].state == Joining(j) && j.left < |tasks| && j.right < |tasks|
    requires x != j.left && x != j.right && idle.state.Free? && Single(u)
    ensures Paired(tasks[j.left := idle][j.right := idle][x := u])
  {
    var other := tasks[j.left := idle][j.right := idle][x := u];
    assert Neighbours(j);
    forall k: nat ensures PairAt(other, k) {
      assert PairAt(tasks, k);
    }
  }

  lemma TransitionPairs(s: Setting, m: Machine, tree: Tree, x: nat)
    requires Inv(s, m, tree) && x in Ids(tree) && x < |m.tasks| && Paired(m.tasks)
    ensures Paired(Transition(s, m, x).m.tasks)
  {
    LiveIn(s, m, tree, x);
    RootLive(s, m, tree);
    if m.tasks[x].state.Ready? || m.tasks[x].state.Returning? {
      hide Inv, Transition, Paired;
      RunsAs(s, m, tree, x);
      var n := Transition(s, m, x).m;
      if SoloAt(m, x, n) {
        SamePairs(m.tasks, n.tasks);
      } else {
        var a, b :| ForkedAt(m, x, n, a, b);
        ForkPairs(m, x, n, a, b);
      }
    } else if m.tasks[x].state.Joining? {
      JoinPairs(s, m, tree, x);
    }
  }

  // ----- one pass -----

  /** How a pass prepares the slots: flags may rise, and the picked task may be turned back. */
  ghost predicate Readied(t: Task, u: Task) {
    && (t.cancelled ==> u.cancelled)
    && (t.state.Done? <==> u.state.Done?) && (u.state.Done? || u.state.Joining? ==> u.state == t.state)
    && (t.state.Free? <==> u.state.Free?) && u.parent == t.parent
  }

  lemma QuotedReadied(m: Machine)
    requires |m.tasks| > 0
    ensures var n := Quoted(m);
      && |n.tasks| == |m.tasks| && n.cursor == m.cursor
      && forall k :: 0 <= k < |m.tasks| ==> Kept(m.tasks[k], n.tasks[k])
  {
  }

  /** A pass without a transition hands nothing on: no task finishes, and the cursor stays. */
  lemma IdlePass(s: Setting, m: Machine, tree: Tree, layout: seq<FrameKind>)
    requires Inv(s, m, tree) && Acting(s, m).None?
    ensures var n := Iterate(s, m, layout).m;
      && |n.tasks| == |m.tasks| && n.cursor == m.cursor
      && forall k :: 0 <= k < |m.tasks| ==> Readied(m.tasks[k], n.tasks[k])
  {
    hide Inv, Iterate, Acting, TerminalFault, FaultResult, Quoted;
    RootLive(s, m, tree);
    QuotedReadied(m);
    QuotedRoot(m);
    var x := IdleIs(s, m, layout);
  }

  /** The machine in which a pass performs its transition. */
  lemma ActingSlots(s: Setting, m: Machine)
    requires |m.tasks| > 0 && Acting(s, m).Some?
    ensures var (c, x) := Acting(s, m).value;
      var n := Quoted(m);
      && |c.tasks| == |n.tasks| == |m.tasks| && x < |m.tasks| && c.cursor == (x + 1) % |m.tasks| && n.cursor == m.cursor
      && (forall k :: 0 <= k < |m.tasks| ==> Kept(m.tasks[k], n.tasks[k]) && Readied(n.tasks[k], c.tasks[k]))
      && (forall k :: 0 <= k < |m.tasks| && k != x ==> c.tasks[k] == n.tasks[k])
      && !m.tasks[x].state.Done? && (m.tasks[x].state.Joining? ==> c.tasks[x] == n.tasks[x])
  {
    QuotedReadied(m);
    hide Scan, FaultResult, Quoted;
    assert Look(Quoted(m).tasks, Acting(s, m).value.1) == Run;
  }

  /** The task of a pass comes before every task that has a loser to cancel. */
  lemma ActingFirst(s: Setting, m: Machine, p: nat)
    requires |m.tasks| > 0 && m.cursor < |m.tasks| && Acting(s, m).Some? && RightLeads(Quoted(m).tasks, p)
    ensures Acting(s, m).value.1 != p ==> Before(m.cursor, Acting(s, m).value.1, p)
  {
    QuotedReadied(m);
    hide Scan, FaultResult, Quoted;
    var n := Quoted(m);
    ScanFirst(n.tasks, n.cursor);
    assert JoinReady(n.tasks, n.tasks[p].state.pair);
    assert Look(n.tasks, p) == Run;
  }

  /** A pass keeps a leading right branch's parent before its left branch. */
  lemma TickOrders(s: Setting, m: Machine, tree: Tree, layout: seq<FrameKind>, p: nat)
    requires Inv(s, m, tree) && Paired(m.tasks) && Ordered(m, p)
    ensures Ordered(Iterate(s, m, layout).m, p)
  {
    RootLive(s, m, tree);
    ActingMoves(s, m, layout);
    ActingKeeps(s, m, tree);
    hide Inv, Iterate, Transition, Acting, Paired;
    if Acting(s, m).None? {
      IdlePass(s, m, tree, layout);
    } else {
      var (c, x) := Acting(s, m).value;
      var r := Transition(s, c, x).m;
      if RightLeads(r.tasks, p) {
        LeadStays(s, m, tree, c, x, p);
      }
    }
  }

  /** A task that is joining after someone else's transition was joining before. */
  lemma JoinersOld(s: Setting, m: Machine, tree: Tree, x: nat, p: nat)
    requires Inv(s, m, tree) && x in Ids(tree) && x < |m.tasks| && p != x
    requires p < |Transition(s, m, x).m.tasks| && Transition(s, m, x).m.tasks[p].state.Joining?
    ensures p in Ids(tree) && p < |m.tasks| && m.tasks[p].state.Joining? && Transition(s, m, x).m.cursor == m.cursor
    ensures !Joined(m.tasks, x, p)
  {
    hide Transition, Inv, Shape, Raced, Conclude;
    LiveIn(s, m, tree, x);
    if m.tasks[x].state.Ready? || m.tasks[x].state.Returning? {
      RunsAs(s, m, tree, x);
    } else if m.tasks[x].state.Joining? {
      JoinIsTransition(s, m, x);
      JoinEffect(s, m, tree, x);
      ChildrenIn(m.tasks, tree, x);
      hide JoinStep;
    } else {
      OtherwiseStill(s, m, x);
    }
    JoinerIn(s, m, tree, p);
  }

  lemma JoinIsTransition(s: Setting, m: Machine, x: nat)
    requires x < |m.tasks| && m.tasks[x].state.Joining?
    ensures Transition(s, m, x) == JoinStep(s, m, x)
  {
  }

  lemma OtherwiseStill(s: Setting, m: Machine, x: nat)
    requires x < |m.tasks| && !m.tasks[x].state.Joining? && !m.tasks[x].state.Ready? && !m.tasks[x].state.Returning?
    ensures Transition(s, m, x) == Turn(m, None)
  {
  }

  lemma JoinerIn(s: Setting, m: Machine, tree: Tree, p: nat)
    requires Inv(s, m, tree) && p < |m.tasks| && m.tasks[p].state.Joining?
    ensures p in Ids(tree)
  {
  }

  /** A racer's branches are nobody else's, and stay as they are unless they act themselves. */
  lemma BranchKept(s: Setting, m: Machine, tree: Tree, x: nat, p: nat, k: nat)
    requires Inv(s, m, tree) && x in Ids(tree) && x < |m.tasks| && p in Ids(tree) && p < |m.tasks| && p != x
    requires m.tasks[p].state.Joining? && (k == m.tasks[p].state.pair.left || k == m.tasks[p].state.pair.right)
      && k != x
    ensures var r := Transition(s, m, x).m;
      k < |m.tasks| && |r.tasks| == |m.tasks| && Kept(m.tasks[k], r.tasks[k])
  {
    hide Transition, Inv, Shape;
    LiveIn(s, m, tree, x);
    ChildrenIn(m.tasks, tree, p);
    if m.tasks[x].state.Joining? {
      ChildrenIn(m.tasks, tree, x);
    }
    Undisturbed(s, m, tree, x, k);
  }

  /** A task's own transition does not clear its flag. */
  lemma OwnFlag(s: Setting, m: Machine, tree: Tree, x: nat)
    requires Inv(s, m, tree) && x in Ids(tree) && x < |m.tasks|
    ensures var r := Transition(s, m, x).m;
      |r.tasks| == |m.tasks| && (m.tasks[x].cancelled ==> r.tasks[x].cancelled)
  {
    LiveIn(s, m, tree, x);
    hide Inv, Transition, Raced, Conclude, Successor;
    if m.tasks[x].state.Ready? || m.tasks[x].state.Returning? {
      RunsAs(s, m, tree, x);
    } else if m.tasks[x].state.Joining? {
      JoinIsTransition(s, m, x);
      JoinFlag(s, m, tree, x);
    } else {
      OtherwiseStill(s, m, x);
    }
  }

  lemma JoinFlag(s: Setting, m: Machine, tree: Tree, x: nat)
    requires Inv(s, m, tree) && x in Ids(tree) && x < |m.tasks| && m.tasks[x].state.Joining?
    ensures var r := JoinStep(s, m, x).m;
      |r.tasks| == |m.tasks| && (m.tasks[x].cancelled ==> r.tasks[x].cancelled)
  {
    hide Inv, JoinStep, Raced, Conclude;
    LiveIn(s, m, tree, x);
    ChildrenIn(m.tasks, tree, x);
    JoinEffect(s, m, tree, x);
    RacedMarks(m.tasks, m.tasks[x].state.pair);
  }

  lemma LeadStays(s: Setting, m: Machine, tree: Tree, c: Machine, x: nat, p: nat)
    requires Inv(s, m, tree) && Inv(s, c, tree) && x in Ids(tree) && Paired(m.tasks) && Ordered(m, p)
    requires Acting(s, m) == Some((c, x)) && RightLeads(Transition(s, c, x).m.tasks, p)
    ensures var r := Transition(s, c, x).m; Before(r.cursor, p, r.tasks[p].state.pair.left)
  {
    hide Inv, Transition, Acting, Quoted, Shape;
    RootLive(s, m, tree);
    ActingSlots(s, m);
    NoLeadAfterOwn(s, c, tree, x);
    var r := Transition(s, c, x).m;
    assert p != x;
    JoinersOld(s, c, tree, x, p);
    Undisturbed(s, c, tree, x, p);
    var j := c.tasks[p].state.pair;
    assert m.tasks[p].state == c.tasks[p].state == r.tasks[p].state;
    LiveIn(s, c, tree, p);
    ChildrenIn(c.tasks, tree, p);
    if x == j.right {
      assert Neighbours(j);
      CursorAfterRight(|m.tasks|, p, j.left);
    } else {
      BranchKept(s, c, tree, x, p, j.right);
      OwnFlag(s, c, tree, x);
      if x != j.left {
        BranchKept(s, c, tree, x, p, j.left);
      }
      assert RightLeads(m.tasks, p) && RightLeads(Quoted(m).tasks, p);
      ActingFirst(s, m, p);
      CursorPasses(m.cursor, |m.tasks|, x, p, j.left);
    }
  }

  // ----- every host call -----

  ghost predicate RaceOk(m: Machine) { Paired(m.tasks) && forall p: nat :: Ordered(m, p) }

  lemma TickPairs(s: Setting, m: Machine, tree: Tree, layout: seq<FrameKind>)
    requires Inv(s, m, tree) && Paired(m.tasks)
    ensures Paired(Iterate(s, m, layout).m.tasks)
  {
    RootLive(s, m, tree);
    ActingMoves(s, m, layout);
    ActingKeeps(s, m, tree);
    hide Inv, Iterate, Transition, Acting, Paired;
    if Acting(s, m).None? {
      IdlePass(s, m, tree, layout);
      SamePairs(m.tasks, Iterate(s, m, layout).m.tasks);
    } else {
      var (c, x) := Acting(s, m).value;
      ActingSlots(s, m);
      SamePairs(m.tasks, c.tasks);
      TransitionPairs(s, c, tree, x);
    }
  }

  /** A response never finishes its task, forks it or clears its flag. */
  lemma AnswerRuns(s: Setting, t: Task, event: HostEvent, max: nat, room: int)
    requires t.state.Waiting?
    ensures var u := Answer(s, t, event, max, room).task;
      (u.state.Ready? || u.state.Returning? || u.state.Waiting?) && u.cancelled == t.cancelled && u.parent == t.parent
  {
  }

  lemma DeliverSlots(s: Setting, m: Machine, i: nat, ticket: nat, event: HostEvent)
    requires |m.tasks| > 0
    ensures var n := Deliver(s, m, i, ticket, event).m;
      && |n.tasks| == |m.tasks| && n.cursor == m.cursor
      && forall k :: 0 <= k < |m.tasks| ==> Readied(m.tasks[k], n.tasks[k])
  {
    if Pending(m, i, ticket) {
      AnswerRuns(s, m.tasks[i], event, m.limits.framesPerTask, Room(m));
    }
    hide Answer, Occupied;
  }

  /** Slots that were only prepared keep pairing and order. */
  lemma ReadiedRace(m: Machine, n: Machine)
    requires RaceOk(m) && |n.tasks| == |m.tasks| && n.cursor == m.cursor
    requires forall k :: 0 <= k < |m.tasks| ==> Readied(m.tasks[k], n.tasks[k])
    ensures RaceOk(n)
  {
    SamePairs(m.tasks, n.tasks);
    forall p: nat ensures Ordered(n, p) {
      assert Ordered(m, p);
    }
  }

  lemma GrowSlots(m: Machine, tasks: nat, capacity: nat, frames: nat, bindings: nat)
    requires |m.tasks| <= tasks
    ensures var n := Grow(m, tasks, capacity, frames, bindings);
      && |n.tasks| == tasks && n.cursor == m.cursor
      && (forall k :: 0 <= k < |m.tasks| ==> Readied(m.tasks[k], n.tasks[k]))
      && (forall k :: |m.tasks| <= k < tasks ==> n.tasks[k].state.Free?)
  {
    var n := Grow(m, tasks, capacity, frames, bindings);
    forall k | 0 <= k < tasks
      ensures k < |m.tasks| ==> Readied(m.tasks[k], n.tasks[k])
      ensures k >= |m.tasks| ==> n.tasks[k].state.Free?
    {
      assert n.tasks[k] == if k < |m.tasks| then Widen(m.tasks[k], bindings) else Idle(bindings);
    }
  }

  lemma GrowRace(m: Machine, tasks: nat, capacity: nat, frames: nat, bindings: nat)
    requires RaceOk(m) && |m.tasks| <= tasks
    requires forall p :: 0 <= p < |m.tasks| && m.tasks[p].state.Joining? ==> m.tasks[p].state.pair.left < |m.tasks|
    ensures RaceOk(Grow(m, tasks, capacity, frames, bindings))
  {
    GrowSlots(m, tasks, capacity, frames, bindings);
    hide Grow;
    var n := Grow(m, tasks, capacity, frames, bindings);
    forall a: nat ensures PairAt(n.tasks, a) {
      assert PairAt(m.tasks, a);
    }
    forall p: nat ensures Ordered(n, p) {
      assert Ordered(m, p);
      if p < |m.tasks| && m.tasks[p].state.Joining? {
        assert Neighbours(m.tasks[p].state.pair);
      }
    }
  }

  lemma JoinersInRange(s: Setting, m: Machine, tree: Tree)
    requires Inv(s, m, tree)
    ensures forall p :: 0 <= p < |m.tasks| && m.tasks[p].state.Joining? ==> m.tasks[p].state.pair.left < |m.tasks|
  {
    forall p | 0 <= p < |m.tasks| && m.tasks[p].state.Joining? ensures m.tasks[p].state.pair.left < |m.tasks| {
      JoinerIn(s, m, tree, p);
      ChildrenIn(m.tasks, tree, p);
    }
  }

  lemma ApplyRace(s: Setting, m: Machine, tree: Tree, move: Move)
    requires Inv(s, m, tree) && Legal(m, move) && RaceOk(m)
    ensures RaceOk(Apply(s, m, move).m)
  {
    RootLive(s, m, tree);
    JoinersInRange(s, m, tree);
    hide Inv, Iterate, Deliver, Grow, Paired, Ordered;
    match move
    case Tick(layout) =>
      TickPairs(s, m, tree, layout);
      forall p: nat ensures Ordered(Iterate(s, m, layout).m, p) {
        TickOrders(s, m, tree, layout, p);
      }
    case Respond(i, ticket, event) =>
      DeliverSlots(s, m, i, ticket, event);
      ReadiedRace(m, Deliver(s, m, i, ticket, event).m);
    case Abort => ReadiedRace(m, Cancel(m));
    case Resize(tasks, capacity, frames, bindings) => GrowRace(m, tasks, capacity, frames, bindings);
  }

  lemma {:induction false} RunRace(s: Setting, states: seq<Machine>, moves: seq<Move>, tree: Tree)
    requires IsRun(s, states, moves) && Inv(s, states[0], tree) && RaceOk(states[0])
    ensures RaceOk(states[|moves|])
  {
    if moves != [] {
      ApplyRace(s, states[0], tree, moves[0]);
      var next := ApplyKeeps(s, states[0], tree, moves[0]);
      hide Apply, Inv, Legal, RaceOk;
      RunRace(s, states[1..], moves[1..], next);
    }
  }

  /** In every state of every run, branches live in neighbouring slots and the scheduler comes to
      the parent of a leading right branch before it comes to the left branch. */
  lemma RaceAt(s: Setting, l: Launch, states: seq<Machine>, moves: seq<Move>, k: nat) returns (tree: Tree)
    requires Launched(s, l, states, moves) && k <= |moves|
    ensures RaceOk(states[k]) && Inv(s, states[k], tree)
  {
    FirstInv(s, l);
    FirstRace(s, l);
    tree := StateAt(s, l, states, moves, k);
    hide RaceOk, Inv, First;
    RunRace(s, states[..k + 1], moves[..k], Solo(0));
  }

  lemma FirstRace(s: Setting, l: Launch)
    requires Admits(s, l)
    ensures RaceOk(First(s, l))
  {
    var m := First(s, l);
    forall a: nat ensures PairAt(m.tasks, a) {
    }
    forall p: nat ensures Ordered(m, p) {
    }
  }

  // ----- who was first -----

  /** Task `p` waits for the branches of `j`, which are in the table. */
  predicate Racing(m: Machine, p: nat, j: JoinState) {
    p < |m.tasks| && m.tasks[p].state == Joining(j) && j.left < |m.tasks| && j.right < |m.tasks|
  }

  /** The pass lets `p` act. */
  predicate Acts(s: Setting, m: Machine, move: Move, p: nat)
    requires |m.tasks| > 0
  {
    move.Tick? && Acting(s, m).Some? && Acting(s, m).value.1 == p
  }

  /** While a parent waits, its own pass only marks branches. */
  lemma OwnPassMarks(s: Setting, c: Machine, tree: Tree, p: nat, j: JoinState)
    requires Inv(s, c, tree) && p in Ids(tree) && Racing(c, p, j)
    requires |Transition(s, c, p).m.tasks| == |c.tasks| && Racing(Transition(s, c, p).m, p, j)
    ensures Transition(s, c, p).m.tasks == Raced(c.tasks, j) && !BothDone(c.tasks, j)
  {
    hide Inv, JoinStep, Raced, Conclude, Merged;
    JoinIsTransition(s, c, p);
    JoinEffect(s, c, tree, p);
  }

  /** What a host call leaves of a branch while its parent waits: unless the branch acts, it is
      the same up to preparation. */
  lemma BranchAfter(s: Setting, m: Machine, tree: Tree, move: Move, p: nat, j: JoinState, k: nat)
    requires Inv(s, m, tree) && Legal(m, move) && |m.tasks| > 0 && Racing(m, p, j) && Racing(Apply(s, m, move).m, p, j)
    requires (k == j.left || k == j.right) && !Acts(s, m, move, k)
    ensures k < |Apply(s, m, move).m.tasks| && Readied(m.tasks[k], Apply(s, m, move).m.tasks[k])
  {
    hide Inv, Iterate, Deliver, Grow, Acting, Transition, Raced;
    match move
    case Tick(layout) => BranchAfterTick(s, m, tree, layout, p, j, k);
    case Respond(i, ticket, event) => DeliverSlots(s, m, i, ticket, event);
    case Abort =>
    case Resize(tasks, capacity, frames, bindings) => GrowSlots(m, tasks, capacity, frames, bindings);
  }

  lemma BranchAfterTick(s: Setting, m: Machine, tree: Tree, layout: seq<FrameKind>, p: nat, j: JoinState, k: nat)
    requires Inv(s, m, tree) && |m.tasks| > 0 && Racing(m, p, j) && Racing(Iterate(s, m, layout).m, p, j)
    requires (k == j.left || k == j.right) && !Acts(s, m, Tick(layout), k)
    ensures k < |Iterate(s, m, layout).m.tasks| && Readied(m.tasks[k], Iterate(s, m, layout).m.tasks[k])
  {
    hide Inv, Iterate, Acting, Transition, Raced;
    ActingMoves(s, m, layout);
    ActingKeeps(s, m, tree);
    if Acting(s, m).None? {
      IdlePass(s, m, tree, layout);
    } else {
      var (c, x) := Acting(s, m).value;
      ActingSlots(s, m);
      OwnFlag(s, c, tree, x);
      if x == p {
        OwnPassMarks(s, c, tree, p, j);
        RacedMarks(c.tasks, j);
      } else {
        JoinersOld(s, c, tree, x, p);
        Undisturbed(s, c, tree, x, p);
        BranchKept(s, c, tree, x, p, k);
      }
    }
  }

  /** A finished branch keeps its outcome while its parent waits. */
  lemma DoneBranchKept(s: Setting, m: Machine, tree: Tree, move: Move, p: nat, j: JoinState, k: nat)
    requires Inv(s, m, tree) && Legal(m, move) && |m.tasks| > 0 && Racing(m, p, j) && Racing(Apply(s, m, move).m, p, j)
    requires (k == j.left || k == j.right) && m.tasks[k].state.Done?
    ensures var n := Apply(s, m, move).m;
      k < |n.tasks| && n.tasks[k].state == m.tasks[k].state && (m.tasks[k].cancelled ==> n.tasks[k].cancelled)
  {
    hide Inv, Apply, Acting;
    if Acts(s, m, move, k) {
      ActingSlots(s, m);
    }
    BranchAfter(s, m, tree, move, p, j, k);
  }

  /** While the right branch leads, the left one cannot finish without being cancelled first. */
  lemma RightStaysFirst(s: Setting, m: Machine, tree: Tree, move: Move, p: nat, j: JoinState)
    requires Inv(s, m, tree) && Legal(m, move) && |m.tasks| > 0 && RaceOk(m) && j.join.Race?
    requires Racing(m, p, j) && Racing(Apply(s, m, move).m, p, j)
    requires m.tasks[j.right].state.Done? && (!m.tasks[j.left].state.Done? || m.tasks[j.left].cancelled)
    ensures var n := Apply(s, m, move).m;
      j.left < |n.tasks| && (!n.tasks[j.left].state.Done? || n.tasks[j.left].cancelled)
  {
    hide Inv, Acting, Apply, Quoted, Paired;
    if !Acts(s, m, move, j.left) {
      BranchAfter(s, m, tree, move, p, j, j.left);
    } else {
      LeftActsCancelled(s, m, tree, move, p, j);
    }
  }

  lemma LeftActsCancelled(s: Setting, m: Machine, tree: Tree, move: Move, p: nat, j: JoinState)
    requires Inv(s, m, tree) && Legal(m, move) && |m.tasks| > 0 && RaceOk(m) && j.join.Race? && Racing(m, p, j)
    requires m.tasks[j.right].state.Done? && Acts(s, m, move, j.left)
    ensures var n := Apply(s, m, move).m; j.left < |n.tasks| && n.tasks[j.left].cancelled
  {
    hide Inv, Acting, Iterate, Quoted, Transition, Paired;
    RootLive(s, m, tree);
    ActingSlots(s, m);
    ActingMoves(s, m, move.layout);
    ActingKeeps(s, m, tree);
    var (c, x) := Acting(s, m).value;
    OwnFlag(s, c, tree, x);
    if !Quoted(m).tasks[x].cancelled {
      assert RightLeads(m.tasks, p) && RightLeads(Quoted(m).tasks, p) && Ordered(m, p);
      ActingFirst(s, m, p);
    }
  }

  /** A waiting parent's own pass never cancels a finished left branch. */
  lemma OwnPassSparesLeft(s: Setting, m: Machine, tree: Tree, move: Move, p: nat, j: JoinState)
    requires Inv(s, m, tree) && Legal(m, move) && |m.tasks| > 0 && Racing(m, p, j) && Racing(Apply(s, m, move).m, p, j)
    requires m.tasks[j.left].state.Done? && Acts(s, m, move, p)
    ensures Apply(s, m, move).m.tasks[j.left].cancelled == m.tasks[j.left].cancelled
  {
    hide Inv, Acting, Iterate, Transition, Raced, Quoted, Shape, Readied;
    ActingSlots(s, m);
    ActingMoves(s, m, move.layout);
    ActingKeeps(s, m, tree);
    var c := Acting(s, m).value.0;
    QuotaSparesDone(m, j.left);
    assert c.tasks[j.left] == m.tasks[j.left];
    OwnFlag(s, c, tree, p);
    OwnPassMarks(s, c, tree, p, j);
    LiveIn(s, c, tree, p);
    RacedSpares(c.tasks, tree, p, j);
  }

  lemma QuotaSparesDone(m: Machine, k: nat)
    requires k < |m.tasks| && m.tasks[k].state.Done?
    ensures k < |Quoted(m).tasks| && Quoted(m).tasks[k] == m.tasks[k]
  {
  }

  lemma RacedSpares(tasks: seq<Task>, tree: Tree, p: nat, j: JoinState)
    requires Shape(tasks, tree, None, 0) && Distinct(tree) && p in Ids(tree) && p < |tasks|
      && tasks[p].state == Joining(j)
    requires DoneAt(tasks, j.left)
    ensures Raced(tasks, j)[j.left] == tasks[j.left]
  {
    ChildrenIn(tasks, tree, p);
    ParentIn(tasks, tree, j.left);
    ParentIn(tasks, tree, j.right);
    if Under(tasks, j.left, j.right, |tasks|) {
      UnderHigher(tasks, tree, j.left, j.right, |tasks|);
    }
  }

  // ----- whole races -----

  ghost predicate Waits(states: seq<Machine>, p: nat, j: JoinState, f: nat, k: nat) {
    k < |states| && forall t :: f <= t <= k ==> Racing(states[t], p, j)
  }

  predicate NoneDone(m: Machine, j: JoinState) { !DoneAt(m.tasks, j.left) && !DoneAt(m.tasks, j.right) }

  /** Someone other than the race itself cancels the left branch in this call. */
  predicate CancelledOutside(s: Setting, m: Machine, move: Move, n: Machine, p: nat, j: JoinState)
    requires |m.tasks| > 0
  {
    && !Acts(s, m, move, p)
    && j.left < |m.tasks| && j.left < |n.tasks| && !m.tasks[j.left].cancelled && n.tasks[j.left].cancelled
  }

  /** One call finishes at most one of two branches. */
  lemma NotBothAtOnce(s: Setting, m: Machine, tree: Tree, move: Move, p: nat, j: JoinState)
    requires Inv(s, m, tree) && Legal(m, move) && |m.tasks| > 0 && Racing(m, p, j) && Racing(Apply(s, m, move).m, p, j)
    requires NoneDone(m, j)
    ensures !BothDone(Apply(s, m, move).m.tasks, j)
  {
    hide Apply, Inv, Acting;
    WaiterIn(s, m, tree, p);
    ChildrenIn(m.tasks, tree, p);
    if Acts(s, m, move, j.left) {
      BranchAfter(s, m, tree, move, p, j, j.right);
    } else {
      BranchAfter(s, m, tree, move, p, j, j.left);
    }
  }

  lemma WaiterIn(s: Setting, m: Machine, tree: Tree, p: nat)
    requires Inv(s, m, tree) && p < |m.tasks| && m.tasks[p].state.Joining?
    ensures p in Ids(tree) && Shape(m.tasks, tree, None, 0) && Distinct(tree)
  {
  }

  /** A waiting parent acts only once a branch is done. */
  lemma ActsOnDone(s: Setting, m: Machine, move: Move, p: nat, j: JoinState)
    requires |m.tasks| > 0 && Racing(m, p, j) && Acts(s, m, move, p)
    ensures !NoneDone(m, j)
  {
    QuotedReadied(m);
    hide Scan, Quoted, Convert;
    assert Look(Quoted(m).tasks, p) == Run;
  }

  lemma StepAt(s: Setting, l: Launch, states: seq<Machine>, moves: seq<Move>, t: nat) returns (tree: Tree)
    requires Launched(s, l, states, moves) && t < |moves|
    ensures Inv(s, states[t], tree) && RaceOk(states[t]) && |states[t].tasks| > 0 && Legal(states[t], moves[t])
    ensures states[t + 1] == Apply(s, states[t], moves[t]).m
  {
    tree := RaceAt(s, l, states, moves, t);
    hide Inv, RaceOk, Apply, Legal;
  }

  lemma {:induction false} RightFirstHolds(
    s: Setting, l: Launch, states: seq<Machine>, moves: seq<Move>, p: nat, j: JoinState, i: nat, k: nat)
    requires Launched(s, l, states, moves) && i <= k && Waits(states, p, j, i, k) && j.join.Race?
    requires states[i].tasks[j.right].state.Done? && !states[i].tasks[j.left].state.Done?
    ensures states[k].tasks[j.right].state == states[i].tasks[j.right].state
    ensures !states[k].tasks[j.left].state.Done? || states[k].tasks[j.left].cancelled
    decreases k
  {
    hide Inv, RaceOk, Apply, Legal, First, Acting;
    if i < k {
      RightFirstHolds(s, l, states, moves, p, j, i, k - 1);
      var tree := StepAt(s, l, states, moves, k - 1);
      DoneBranchKept(s, states[k - 1], tree, moves[k - 1], p, j, j.right);
      RightStaysFirst(s, states[k - 1], tree, moves[k - 1], p, j);
    }
  }

  lemma {:induction false} LeftDoneHolds(
    s: Setting, l: Launch, states: seq<Machine>, moves: seq<Move>, p: nat, j: JoinState, i: nat, k: nat)
    requires Launched(s, l, states, moves) && i <= k && Waits(states, p, j, i, k)
    requires states[i].tasks[j.left].state.Done?
    ensures states[k].tasks[j.left].state == states[i].tasks[j.left].state
    ensures states[k].tasks[j.left].cancelled ==>
      states[i].tasks[j.left].cancelled ||
      exists t :: i <= t < k && CancelledOutside(s, states[t], moves[t], states[t + 1], p, j)
    decreases k
  {
    hide Inv, RaceOk, Apply, Legal, First, Acting;
    if i < k {
      LeftDoneHolds(s, l, states, moves, p, j, i, k - 1);
      var tree := StepAt(s, l, states, moves, k - 1);
      DoneBranchKept(s, states[k - 1], tree, moves[k - 1], p, j, j.left);
      if Acts(s, states[k - 1], moves[k - 1], p) {
        OwnPassSparesLeft(s, states[k - 1], tree, moves[k - 1], p, j);
      } else if !states[k - 1].tasks[j.left].cancelled && states[k].tasks[j.left].cancelled {
        assert CancelledOutside(s, states[k - 1], moves[k - 1], states[k - 1 + 1], p, j);
      }
    }
  }

  /** Before any branch is done, only someone else can cancel the left one. */
  lemma {:induction false} FlagBefore(
    s: Setting, l: Launch, states: seq<Machine>, moves: seq<Move>, p: nat, j: JoinState, f: nat, i: nat)
    requires Launched(s, l, states, moves) && f <= i && Waits(states, p, j, f, i)
    requires forall t :: f <= t < i ==> NoneDone(states[t], j)
    ensures states[i].tasks[j.left].cancelled ==>
      states[f].tasks[j.left].cancelled ||
      exists t :: f <= t < i && CancelledOutside(s, states[t], moves[t], states[t + 1], p, j)
    decreases i
  {
    hide Inv, RaceOk, Apply, Legal, First, Acting;
    if f < i {
      FlagBefore(s, l, states, moves, p, j, f, i - 1);
      if Acts(s, states[i - 1], moves[i - 1], p) {
        ActsOnDone(s, states[i - 1], moves[i - 1], p, j);
      } else if !states[i - 1].tasks[j.left].cancelled && states[i].tasks[j.left].cancelled {
        assert CancelledOutside(s, states[i - 1], moves[i - 1], states[i - 1 + 1], p, j);
      }
    }
  }

  /** The first state in which a branch is done has exactly one of them done. */
  lemma {:induction false} FirstDone(
    s: Setting, l: Launch, states: seq<Machine>, moves: seq<Move>, p: nat, j: JoinState, f: nat, k: nat)
      returns (i: nat)
    requires Launched(s, l, states, moves) && f <= k && Waits(states, p, j, f, k)
    requires NoneDone(states[f], j) && !NoneDone(states[k], j)
    ensures f < i <= k && !NoneDone(states[i], j) && !BothDone(states[i].tasks, j)
    ensures forall t :: f <= t < i ==> NoneDone(states[t], j)
    decreases k - f
  {
    hide Inv, RaceOk, Apply, Legal, First, Racing;
    if NoneDone(states[f + 1], j) {
      i := FirstDone(s, l, states, moves, p, j, f + 1, k);
    } else {
      var tree := StepAt(s, l, states, moves, f);
      assert Racing(states[f], p, j) && Racing(states[f + 1], p, j);
      NotBothAtOnce(s, states[f], tree, moves[f], p, j);
      i := f + 1;
    }
  }

  /** What a merge leaves: the outcome of `w`, under the control of both branches. */
  ghost predicate Chosen(s: Setting, c: Machine, j: JoinState, w: nat) {
    && BothDone(c.tasks, j) && w < |c.tasks| && c.tasks[w].state.Done?
    && Merged(s.h, c.tasks, j) ==
         s.h.influenceResult(c.tasks[w].state.outcome,
           s.h.influence(s.h.retainResult(c.tasks[j.left].state.outcome),
             s.h.retainResult(c.tasks[j.right].state.outcome)))
  }

  lemma MergeChooses(s: Setting, c: Machine, tree: Tree, p: nat, j: JoinState)
    requires Inv(s, c, tree) && p < |c.tasks| && c.tasks[p].state == Joining(j) && j.join.Race? && BothDone(c.tasks, j)
    ensures Chosen(s, c, j, if c.tasks[j.left].cancelled then j.right else j.left)
  {
    WaiterIn(s, c, tree, p);
    RacedSpares(c.tasks, tree, p, j);
    hide Inv, Shape, Raced;
  }

  /** A race over: `p` waits from `f` to `k` for two running branches, and call `k` merges them.
      Some branch is the first to be done. If it is the right one, the race returns its result.
      If it is the left one, the race returns its result unless somebody outside the race has
      cancelled it. */
  lemma RaceReturnsFirst(
    s: Setting, l: Launch, states: seq<Machine>, moves: seq<Move>, p: nat, j: JoinState, f: nat, k: nat)
    returns (i: nat, first: nat)
    requires Launched(s, l, states, moves) && f <= k < |moves| && Waits(states, p, j, f, k) && j.join.Race?
    requires NoneDone(states[f], j)
    requires Acts(s, states[k], moves[k], p) && BothDone(Acting(s, states[k]).value.0.tasks, j)
    ensures f < i <= k && (first == j.left || first == j.right)
    ensures forall t :: f <= t < i ==> NoneDone(states[t], j)
    ensures DoneAt(states[i].tasks, first) && !BothDone(states[i].tasks, j)
    ensures var c := Acting(s, states[k]).value.0;
      && first < |c.tasks| && c.tasks[first].state == states[i].tasks[first].state
      && Chosen(s, c, j, if first == j.left && c.tasks[j.left].cancelled then j.right else first)
      && (first == j.left && c.tasks[j.left].cancelled ==>
            states[f].tasks[j.left].cancelled ||
            exists t :: f <= t < k && CancelledOutside(s, states[t], moves[t], states[t + 1], p, j))
  {
    hide Inv, RaceOk, Apply, Legal, First, Acting, Chosen, Quoted, IsRun;
    var tree := StepAt(s, l, states, moves, k);
    ActingSlots(s, states[k]);
    ActingKeeps(s, states[k], tree);
    var c := Acting(s, states[k]).value.0;
    assert Racing(states[k], p, j);
    MergeChooses(s, c, tree, p, j);
    i := FirstDone(s, l, states, moves, p, j, f, k);
    assert Racing(states[i], p, j);
    if DoneAt(states[i].tasks, j.right) {
      first := j.right;
      RightFirstHolds(s, l, states, moves, p, j, i, k);
    } else {
      first := j.left;
      LeftDoneHolds(s, l, states, moves, p, j, i, k);
      FlagBefore(s, l, states, moves, p, j, f, i);
      QuotaSparesDone(states[k], j.left);
    }
  }
}
