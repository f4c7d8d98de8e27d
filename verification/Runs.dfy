/** Host-driven runs: every call a host can make keeps the task tree. */
module Runs {
  import opened Program
  import opened Machine
  import opened Stacks
  import opened Forest

  /** One host call: a pass of `advance`, a response, a cancellation, or a move to larger storage. */
  datatype Move =
    | Tick(layout: seq<FrameKind>)
    | Respond(task: nat, ticket: nat, event: HostEvent)
    | Abort
    | Resize(tasks: nat, capacity: nat, frames: nat, bindings: nat)

  ghost predicate Legal(m: Machine, move: Move) {
    match move
    case Tick(layout) => IsLayout(m, layout)
    case Respond(_, _, _) => true
    case Abort => true
    case Resize(tasks, capacity, frames, bindings) =>
      && |m.tasks| <= tasks <= U32_MAX && m.capacity <= capacity <= U32_MAX
      && m.limits.framesPerTask <= frames && m.limits.bindingsPerTask <= bindings
  }

  function Apply(s: Setting, m: Machine, move: Move): Turn
    requires |m.tasks| > 0
  {
    match move
    case Tick(layout) => Iterate(s, m, layout)
    case Respond(i, ticket, event) => Turn(Deliver(s, m, i, ticket, event).m, None)
    case Abort => Turn(Cancel(m), None)
    case Resize(tasks, capacity, frames, bindings) =>
      Turn(if |m.tasks| <= tasks then Grow(m, tasks, capacity, frames, bindings) else m, None)
  }

  // ----- one transition -----

  lemma SpawnKeeps(s: Setting, m: Machine, tree: Tree, i: nat, t: Task, left: nat, right: nat, join: Join, input: V)
    returns (grown: Tree)
    requires Inv(s, m, tree) && i in Ids(tree) && i < |m.tasks| && m.tasks[i].state.Ready?
    requires t == m.tasks[i].(input := t.input) && t.input.Some?
    requires s.image.nodes[t.pc].kind.Fork? && s.image.Has(left) && s.image.Has(right)
    ensures Inv(s, SpawnTasks(s, m, i, t, left, right, join, input), grown)
  {
    ShapeAt(m.tasks, tree, None, 0, i);
    var a := FirstFree(m.tasks, 0);
    if a.None? || FirstFree(m.tasks, a.value + 1).None? {
      TrappedKeeps(s, m, tree, i, t, Tasks);
      grown := tree;
    } else {
      var b := FirstFree(m.tasks, a.value + 1);
      ForkedKeeps(s, m, tree, i, t, a.value, b.value, left, right, join, input);
      grown := Graft(tree, Pair(i, Solo(a.value), Solo(b.value)));
    }
  }

  lemma TrappedKeeps(s: Setting, m: Machine, tree: Tree, i: nat, t: Task, fault: Fault)
    requires Inv(s, m, tree) && i in Ids(tree) && i < |m.tasks| && JoinOf(m.tasks[i].state).None?
    requires t == m.tasks[i].(input := t.input) && t.input.Some?
    ensures Inv(s, Trapped(s, m, i, t, fault), tree)
  {
    hide CleanedIn, Occupied, Restored, RestoredContext;
    LeafMoves(s, m, tree, i, Return(t, FaultResult(s.h, t, fault)));
  }

  lemma ForkedKeeps(
    s: Setting, m: Machine, tree: Tree, i: nat, t: Task, a: nat, b: nat, left: nat, right: nat, join: Join, input: V)
    requires Inv(s, m, tree) && i in Ids(tree) && i < |m.tasks| && m.tasks[i].state.Ready?
    requires t == m.tasks[i].(input := t.input) && t.input.Some?
    requires s.image.Has(left) && s.image.Has(right) && s.image.nodes[t.pc].kind.Fork?
    requires a < b < |m.tasks| && m.tasks[a].state.Free? && m.tasks[b].state.Free?
    ensures Inv(s, Forked(m, i, t, a, b, left, right, join, input), Graft(tree, Pair(i, Solo(a), Solo(b))))
  {
    hide CleanedIn, Occupied, Restored, RestoredContext, Shape, Ids, Distinct, At, Graft;
    ShapeAt(m.tasks, tree, None, 0, i);
    LeafAt(m.tasks, tree, i);
    var other := Forked(m, i, t, a, b, left, right, join, input).tasks;
    var sub := Pair(i, Solo(a), Solo(b));
    assert a !in Ids(tree) && b !in Ids(tree) && a != i && b != i;
    ForkIds(i, a, b);
    ForkedShape(m, i, t, a, b, left, right, join, input);
    OccupiedAlike(m.tasks, other);
    Replaced(s, m, tree, other, sub);
  }

  lemma ForkIds(i: nat, a: nat, b: nat)
    requires i != a && i != b && a != b
    ensures Distinct(Pair(i, Solo(a), Solo(b))) && Ids(Pair(i, Solo(a), Solo(b))) == {i, a, b}
  {
  }

  lemma ForkedShape(
    m: Machine, i: nat, t: Task, a: nat, b: nat, left: nat, right: nat, join: Join, input: V)
    requires i < |m.tasks| && CleanedIn(m.tasks[i].stack) <= m.tasks[i].cleaning
    requires NodeOk(m.tasks[i], m.tasks[i].parent, m.tasks[i].cleaning - CleanedIn(m.tasks[i].stack))
    requires t == m.tasks[i].(input := t.input) && t.input.Some?
    requires a < b < |m.tasks| && i != a && i != b && m.tasks[a].stack == [] && m.tasks[b].stack == []
    ensures Shape(Forked(m, i, t, a, b, left, right, join, input).tasks, Pair(i, Solo(a), Solo(b)), t.parent,
                  t.cleaning - CleanedIn(t.stack))
  {
    var other := Forked(m, i, t, a, b, left, right, join, input).tasks;
    assert other[a] == Child(m.tasks[a], i, t, left, input) && other[b] == Child(m.tasks[b], i, t, right, input);
    assert Shape(other, Solo(a), Some(i), t.cleaning);
    assert Shape(other, Solo(b), Some(i), t.cleaning);
  }

  lemma JoinedKeeps(s: Setting, m: Machine, tree: Tree, i: nat, u: Task)
    requires Inv(s, m, tree) && i in Ids(tree) && i < |m.tasks| && m.tasks[i].state.Joining?
    requires var j := m.tasks[i].state.pair; DoneAt(m.tasks, j.left) && DoneAt(m.tasks, j.right)
    requires Successor(s.image, m.limits.framesPerTask, 0, m.tasks[i], u)
    ensures var j := m.tasks[i].state.pair;
      var idle := Idle(m.limits.bindingsPerTask);
      Inv(s, m.(tasks := m.tasks[j.left := idle][j.right := idle][i := u]), Graft(tree, Solo(i)))
  {
    hide CleanedIn, Occupied, Restored, RestoredContext, Shape, Ids, Distinct, At, Graft;
    var j := m.tasks[i].state.pair;
    var idle := Idle(m.limits.bindingsPerTask);
    ShapeAt(m.tasks, tree, None, 0, i);
    PairIs(m.tasks, tree, i);
    ForkIds(i, j.left, j.right);
    SoloIs(i);
    var one := m.tasks[j.left := idle];
    var two := one[j.right := idle];
    OccupiedSet(m.tasks, j.left, idle);
    OccupiedSet(one, j.right, idle);
    OccupiedSet(two, i, u);
    SoloShape(two[i := u], i, m.tasks[i].parent, m.tasks[i].cleaning - CleanedIn(m.tasks[i].stack));
    Replaced(s, m, tree, two[i := u], Solo(i));
  }

  lemma PairIs(tasks: seq<Task>, tree: Tree, i: nat)
    requires Shape(tasks, tree, None, 0) && Distinct(tree) && i in Ids(tree) && i < |tasks| && tasks[i].state.Joining?
    requires var j := tasks[i].state.pair; DoneAt(tasks, j.left) && DoneAt(tasks, j.right)
    ensures var j := tasks[i].state.pair;
      && At(tree, i) == Pair(i, Solo(j.left), Solo(j.right))
      && i != j.left && i != j.right && j.left != j.right
      && j.left < |tasks| && j.right < |tasks|
      && tasks[j.left].stack == [] && tasks[j.right].stack == []
    ensures CleanedIn(tasks[i].stack) <= tasks[i].cleaning
    ensures NodeOk(tasks[i], tasks[i].parent, tasks[i].cleaning - CleanedIn(tasks[i].stack))
  {
    ShapeAt(tasks, tree, None, 0, i);
  }

  lemma SoloIs(i: nat)
    ensures Distinct(Solo(i)) && Ids(Solo(i)) == {i}
  {
  }

  lemma SoloShape(tasks: seq<Task>, i: nat, parent: Option<nat>, inherited: nat)
    requires i < |tasks| && NodeOk(tasks[i], parent, inherited) && JoinOf(tasks[i].state).None?
    ensures Shape(tasks, Solo(i), parent, inherited)
  {
  }

  lemma CancelTreeKeeps(s: Setting, m: Machine, tree: Tree, root: nat)
    requires Inv(s, m, tree) && root in Ids(tree)
    ensures Inv(s, m.(tasks := CancelTree(m.tasks, root)), tree)
  {
    MarkingKeeps(s, m, tree, CancelTree(m.tasks, root));
  }

  /** A joining task's children are its two subtrees. */
  lemma ChildrenIn(tasks: seq<Task>, tree: Tree, i: nat)
    requires Shape(tasks, tree, None, 0) && Distinct(tree) && i in Ids(tree) && i < |tasks| && tasks[i].state.Joining?
    ensures var j := tasks[i].state.pair;
      && At(tree, i).Pair? && At(tree, i).left.id == j.left && At(tree, i).right.id == j.right
      && j.left in Ids(tree) && j.right in Ids(tree)
      && j.left < |tasks| && j.right < |tasks| && i != j.left && i != j.right && j.left != j.right
      && tasks[j.left].parent == Some(i) && tasks[j.right].parent == Some(i)
      && !tasks[j.left].state.Free? && !tasks[j.right].state.Free?
      && !tasks[j.left].state.Halted? && !tasks[j.right].state.Halted?
  {
    ShapeAt(tasks, tree, None, 0, i);
    var sub := At(tree, i);
    assert sub.left.id in Ids(sub.left) && sub.right.id in Ids(sub.right);
  }

  /** What a join does to each slot: marks the loser, or frees both branches and lets the
      parent conclude with their merged result. */
  lemma JoinEffect(s: Setting, m: Machine, tree: Tree, i: nat)
    requires Inv(s, m, tree) && i in Ids(tree) && i < |m.tasks| && m.tasks[i].state.Joining?
    ensures var j, turn := m.tasks[i].state.pair, JoinStep(s, m, i);
      var idle, t := Idle(m.limits.bindingsPerTask), Raced(m.tasks, j)[i];
      && turn.out.None? && |turn.m.tasks| == |m.tasks| && turn.m == m.(tasks := turn.m.tasks)
      && (!BothDone(m.tasks, j) ==> turn.m.tasks == Raced(m.tasks, j))
      && (BothDone(m.tasks, j) ==>
            var l := Conclude(s, t, j.node, Merged(s.h, m.tasks, j));
            && l.Next? && Successor(s.image, m.limits.framesPerTask, 0, t, l.task)
            && turn.m.tasks == Raced(m.tasks, j)[j.left := idle][j.right := idle][i := l.task])
      && (forall k :: 0 <= k < |m.tasks| ==>
        Raced(m.tasks, j)[k] == m.tasks[k].(cancelled := Raced(m.tasks, j)[k].cancelled))
  {
    hide CleanedIn, Occupied, Restored, RestoredContext, Shape, Conclude, Merged, Successor;
    var j := m.tasks[i].state.pair;
    RacedFlags(m.tasks, j);
    LiveTask(s, m, tree, i);
    if BothDone(m.tasks, j) {
      ConcludeOk(s, Raced(m.tasks, j)[i], j.node, Merged(s.h, m.tasks, j), m.limits.framesPerTask, 0);
    }
  }

  lemma RacedFlags(tasks: seq<Task>, j: JoinState)
    ensures forall k :: 0 <= k < |tasks| ==> Raced(tasks, j)[k] == tasks[k].(cancelled := Raced(tasks, j)[k].cancelled)
  {
  }

  /** What the invariant says about one live task. */
  lemma LiveTask(s: Setting, m: Machine, tree: Tree, i: nat)
    requires Inv(s, m, tree) && i in Ids(tree) && i < |m.tasks|
    ensures var t := m.tasks[i];
      && |t.env| == m.limits.bindingsPerTask && ProgramOk(s, |t.env|)
      && StackOk(s.image, |t.env|, t.stack) && StateOk(s.image, t)
      && |t.stack| <= m.limits.framesPerTask && 0 <= Room(m) && t.input.Some? && !t.state.Free?
      && CleanedIn(t.stack) <= t.cleaning && (t.state.Halted? ==> i == 0)
  {
    hide CleanedIn, Occupied, FrameOk;
    ShapeAt(m.tasks, tree, None, 0, i);
    assert TaskOk(s.image, m.limits, m.tasks[i]);
  }

  lemma JoinStepKeeps(s: Setting, m: Machine, tree: Tree, i: nat) returns (grown: Tree)
    requires Inv(s, m, tree) && i in Ids(tree) && i < |m.tasks| && m.tasks[i].state.Joining?
    ensures Inv(s, JoinStep(s, m, i).m, grown) && JoinStep(s, m, i).out.None?
  {
    var j := m.tasks[i].state.pair;
    var n := m.(tasks := Raced(m.tasks, j));
    ChildrenIn(m.tasks, tree, i);
    JoinEffect(s, m, tree, i);
    var a := DoneAt(m.tasks, j.left);
    var loser := if a then j.right else j.left;
    if j.join.Race? && (a || DoneAt(m.tasks, j.right)) {
      CancelTreeKeeps(s, m, tree, loser);
    }
    hide CleanedIn, Occupied, Restored, RestoredContext, JoinStep, Shape;
    grown := tree;
    if BothDone(m.tasks, j) {
      JoinedKeeps(s, n, tree, i, Conclude(s, n.tasks[i], j.node, Merged(s.h, m.tasks, j)).task);
      grown := Graft(tree, Solo(i));
    }
  }

  /** A fork changes its own task and two free slots, nothing else. */
  lemma SpawnEffect(s: Setting, m: Machine, i: nat, t: Task, left: nat, right: nat, join: Join, input: V)
    requires i < |m.tasks| && !m.tasks[i].state.Free?
    ensures var n := SpawnTasks(s, m, i, t, left, right, join, input);
      && |n.tasks| == |m.tasks| && n == m.(tasks := n.tasks)
      && (forall k :: 0 <= k < |m.tasks| && k != i ==>
            n.tasks[k] == m.tasks[k] ||
            (m.tasks[k].state.Free? &&
             (n.tasks[k] == Child(m.tasks[k], i, t, left, input)
               || n.tasks[k] == Child(m.tasks[k], i, t, right, input))))
      && (n.tasks[i] == Return(t, FaultResult(s.h, t, Tasks))
        || (n.tasks[i] == t.(state := n.tasks[i].state) && n.tasks[i].state.Joining?))
  {
  }

  lemma TransitionKeeps(s: Setting, m: Machine, tree: Tree, i: nat) returns (grown: Tree)
    requires Inv(s, m, tree) && i in Ids(tree) && i < |m.tasks|
    ensures Inv(s, Transition(s, m, i).m, grown)
  {
    ShapeAt(m.tasks, tree, None, 0, i);
    hide CleanedIn, Occupied, Restored, RestoredContext;
    var t := m.tasks[i];
    var max := m.limits.framesPerTask;
    grown := tree;
    match t.state
    case Returning(_) =>
      UnwindOk(s, t, max, Room(m));
      LeafMoves(s, m, tree, i, Unwind(s, t, max, Room(m)).task);
    case Joining(_) => grown := JoinStepKeeps(s, m, tree, i);
    case Ready =>
      BeginOk(s, t, max, Room(m), m.ticket);
      var l := Begin(s, t, max, Room(m), m.ticket);
      if l.Spawn? {
        grown := SpawnKeeps(s, m, tree, i, l.task, l.left, l.right, l.join, l.shared);
      } else {
        LeafMoves(s, m, tree, i, After(s.h, l));
      }
    case _ =>
  }

  /** Only task `x` has changed, and it runs on its own. */
  ghost predicate SoloAt(m: Machine, x: nat, n: Machine) {
    && x < |m.tasks| == |n.tasks| && n.cursor == m.cursor
    && Single(n.tasks[x]) && n.tasks[x].cancelled == m.tasks[x].cancelled
    && forall k :: 0 <= k < |m.tasks| && k != x ==> n.tasks[k] == m.tasks[k]
  }

  /** Task `x` has forked into the first two free slots. */
  ghost predicate ForkedAt(m: Machine, x: nat, n: Machine, a: nat, b: nat) {
    && x < |m.tasks| == |n.tasks| && n.cursor == m.cursor
    && a < b < |m.tasks| && x != a && x != b && FirstFree(m.tasks, 0) == Some(a) && FirstFree(m.tasks, a + 1) == Some(b)
    && n.tasks[x].state.Joining? && n.tasks[x].state.pair.left == a && n.tasks[x].state.pair.right == b
    && n.tasks[x].cancelled == m.tasks[x].cancelled && n.tasks[a].state.Ready? && n.tasks[b].state.Ready?
    && forall k :: 0 <= k < |m.tasks| && k != x && k != a && k != b ==> n.tasks[k] == m.tasks[k]
  }

  lemma SpawnRuns(s: Setting, m: Machine, x: nat, t: Task, left: nat, right: nat, join: Join, input: V)
    requires x < |m.tasks| && !m.tasks[x].state.Free? && t == m.tasks[x].(input := t.input) && t.input.Some?
      && t.state.Ready?
    ensures var n := SpawnTasks(s, m, x, t, left, right, join, input);
      SoloAt(m, x, n) || exists a, b :: ForkedAt(m, x, n, a, b)
  {
    var n := SpawnTasks(s, m, x, t, left, right, join, input);
    var a := FirstFree(m.tasks, 0);
    if a.Some? && FirstFree(m.tasks, a.value + 1).Some? {
      assert ForkedAt(m, x, n, a.value, FirstFree(m.tasks, a.value + 1).value);
    }
  }

  lemma LocalRuns(s: Setting, m: Machine, x: nat, l: Local)
    requires x < |m.tasks| && !l.Spawn? && Single(After(s.h, l)) && l.task.cancelled == m.tasks[x].cancelled
    ensures SoloAt(m, x, Settle(s, m, x, l).m)
  {
    hide FaultResult;
  }

  /** A task that starts an instruction or hands down a result acts alone, or forks. */
  lemma RunsAs(s: Setting, m: Machine, tree: Tree, x: nat)
    requires Inv(s, m, tree) && x in Ids(tree) && x < |m.tasks|
      && (m.tasks[x].state.Ready? || m.tasks[x].state.Returning?)
    ensures var n := Transition(s, m, x).m; SoloAt(m, x, n) || exists a, b :: ForkedAt(m, x, n, a, b)
  {
    ShapeAt(m.tasks, tree, None, 0, x);
    assert TaskOk(s.image, m.limits, m.tasks[x]);
    hide CleanedIn, Occupied, Restored, RestoredContext, Shape, SoloAt, ForkedAt, SpawnTasks, Unwind, Begin;
    var t, max := m.tasks[x], m.limits.framesPerTask;
    if t.state.Returning? {
      UnwindOk(s, t, max, Room(m));
      LocalRuns(s, m, x, Unwind(s, t, max, Room(m)));
    } else {
      BeginOk(s, t, max, Room(m), m.ticket);
      var l := Begin(s, t, max, Room(m), m.ticket);
      if l.Spawn? {
        SpawnRuns(s, m, x, l.task, l.left, l.right, l.join, l.shared);
      } else {
        LocalRuns(s, m, x, l);
      }
    }
  }

  // ----- one pass of the scheduler -----

  lemma RootLive(s: Setting, m: Machine, tree: Tree)
    requires Inv(s, m, tree)
    ensures |m.tasks| > 0 && !m.tasks[0].state.Free? && m.cursor < |m.tasks|
  {
    assert 0 in Ids(tree);
  }

  lemma CancelKeeps(s: Setting, m: Machine, tree: Tree)
    requires Inv(s, m, tree)
    ensures Inv(s, Cancel(m), tree)
  {
    if !Terminal(m.tasks[0].state) {
      MarkingKeeps(s, m, tree, MarkLive(m.tasks));
    }
  }

  lemma HaltShape(tasks: seq<Task>, tree: Tree, r: Res)
    requires Shape(tasks, tree, None, 0) && Distinct(tree) && tree.id == 0
    ensures Shape(tasks[0 := tasks[0].(state := Halted(r, JoinOf(tasks[0].state)))], tree, None, 0)
  {
    hide CleanedIn;
    var other := tasks[0 := tasks[0].(state := Halted(r, JoinOf(tasks[0].state)))];
    if tree.Pair? {
      assert 0 !in Ids(tree.left) && 0 !in Ids(tree.right);
      ShapeAlike(tasks, other, tree.left, Some(0), tasks[0].cleaning);
      ShapeAlike(tasks, other, tree.right, Some(0), tasks[0].cleaning);
    }
  }

  lemma HaltKeeps(s: Setting, m: Machine, tree: Tree, layout: seq<FrameKind>)
    requires Inv(s, m, tree)
    ensures Inv(s, Halt(s, m, layout).m, tree)
  {
    hide CleanedIn, Occupied, Shape, TerminalFault, FrameOk;
    var other := Halt(s, m, layout).m.tasks;
    assert 0 in Ids(tree) && !m.tasks[0].state.Free?;
    HaltShape(m.tasks, tree, TerminalFault(s.h, m.tasks, layout, Fuel));
    OccupiedAlike(m.tasks, other);
    forall i | 0 <= i < |other| ensures TaskOk(s.image, m.limits, other[i]) {
      assert TaskOk(s.image, m.limits, m.tasks[i]);
    }
  }

  lemma ConvertKeeps(s: Setting, m: Machine, tree: Tree, i: nat)
    requires Inv(s, m, tree) && i < |m.tasks| && Look(m.tasks, i) == Run && !Terminal(m.tasks[0].state)
    ensures Inv(s, SetTask(m, i, Convert(s.h, m.tasks[i])), tree) && i in Ids(tree)
  {
    ShapeAt(m.tasks, tree, None, 0, i);
    hide CleanedIn, Occupied, Restored, RestoredContext;
    var t := m.tasks[i];
    if t.state.Joining? {
      assert Convert(s.h, t) == t && m.tasks[i := t] == m.tasks;
    } else {
      ConvertOk(s.image, s.h, t, m.limits.framesPerTask);
      LeafMoves(s, m, tree, i, Convert(s.h, t));
    }
  }

  lemma SpendKeeps(s: Setting, m: Machine, tree: Tree, i: nat)
    requires Inv(s, m, tree) && i < |m.tasks|
    ensures Inv(s, Spend(m, i), tree)
  {
  }

  lemma ScheduleKeeps(s: Setting, m: Machine, tree: Tree, layout: seq<FrameKind>) returns (grown: Tree)
    requires Inv(s, m, tree) && !Terminal(m.tasks[0].state)
    ensures Inv(s, Schedule(s, m, layout).m, grown)
  {
    var pick := Scan(m.tasks, m.cursor, 0);
    grown := tree;
    if pick.Some? && !m.tasks[pick.value].state.Waiting? {
      var i := pick.value;
      ConvertKeeps(s, m, tree, i);
      var n := SetTask(m, i, Convert(s.h, m.tasks[i]));
      if n.aborting && n.cleanupSteps >= n.limits.cleanupSteps {
        HaltKeeps(s, n, tree, layout);
      } else {
        assert Inv(s, Spend(n, i), tree);
        grown := TransitionKeeps(s, Spend(n, i), tree, i);
      }
    }
  }

  lemma WaiterLive(s: Setting, m: Machine, tree: Tree, i: nat)
    requires Inv(s, m, tree) && i < |m.tasks| && m.tasks[i].state.Waiting?
    ensures i in Ids(tree)
  {
  }

  lemma DeliverKeeps(s: Setting, m: Machine, tree: Tree, i: nat, ticket: nat, event: HostEvent)
    requires Inv(s, m, tree)
    ensures Inv(s, Deliver(s, m, i, ticket, event).m, tree)
  {
    if Pending(m, i, ticket) {
      ShapeAt(m.tasks, tree, None, 0, i);
      hide CleanedIn, Occupied, Restored, RestoredContext;
      DeliverOk(s, m.tasks[i], event, m.limits.framesPerTask, Room(m));
      LeafMoves(s, m, tree, i, Answer(s, m.tasks[i], event, m.limits.framesPerTask, Room(m)).task);
    }
  }

  lemma {:induction false} NoFrames(tasks: seq<Task>)
    requires forall k :: 0 <= k < |tasks| ==> tasks[k].stack == []
    ensures Occupied(tasks) == 0 && AllFrames(tasks) == multiset{}
  {
    if tasks != [] {
      NoFrames(tasks[..|tasks| - 1]);
    }
  }

  lemma {:induction false} OccupiedPadded(tasks: seq<Task>, other: seq<Task>)
    requires |tasks| <= |other|
    requires forall k :: 0 <= k < |tasks| ==> other[k].stack == tasks[k].stack
    requires forall k :: |tasks| <= k < |other| ==> other[k].stack == []
    ensures Occupied(other) == Occupied(tasks)
  {
    if |tasks| == |other| {
      OccupiedAlike(tasks, other);
    } else {
      OccupiedPadded(tasks, other[..|other| - 1]);
    }
  }

  lemma GrownTask(m: Machine, tasks: nat, capacity: nat, frames: nat, bindings: nat, i: nat)
    requires |m.tasks| <= tasks && i < tasks
    ensures Grow(m, tasks, capacity, frames, bindings).tasks[i] ==
      if i < |m.tasks| then Widen(m.tasks[i], bindings) else Idle(bindings)
  {
  }

  lemma GrowKeeps(s: Setting, m: Machine, tree: Tree, tasks: nat, capacity: nat, frames: nat, bindings: nat)
    requires Inv(s, m, tree) && Legal(m, Resize(tasks, capacity, frames, bindings))
    ensures Inv(s, Grow(m, tasks, capacity, frames, bindings), tree)
  {
    hide CleanedIn, Occupied, Shape, Ids, Distinct, TaskOk, Grow, Idle;
    var g := Grow(m, tasks, capacity, frames, bindings);
    GrowParts(m, tasks, capacity, frames, bindings);
    forall i | 0 <= i < tasks
      ensures g.tasks[i] == if i < |m.tasks| then Widen(m.tasks[i], bindings) else Idle(bindings)
    {
      GrownTask(m, tasks, capacity, frames, bindings, i);
    }
    InRange(m.tasks, tree);
    IdleFits(s.image, g.limits);
    IdleWide(m.limits.bindingsPerTask, bindings);
    OccupiedPadded(m.tasks, g.tasks);
    ShapeAlike(m.tasks, g.tasks, tree, None, 0);
    forall i | 0 <= i < |g.tasks| ensures TaskOk(s.image, g.limits, g.tasks[i]) {
      if i < |m.tasks| {
        WidenOk(s.image, m.limits, g.limits, m.tasks[i]);
      }
    }
  }

  lemma GrowParts(m: Machine, tasks: nat, capacity: nat, frames: nat, bindings: nat)
    requires |m.tasks| <= tasks
    ensures var g := Grow(m, tasks, capacity, frames, bindings);
      && |g.tasks| == tasks && g.capacity == capacity && g.cursor == m.cursor
      && g.limits == m.limits.(framesPerTask := frames, bindingsPerTask := bindings)
  {
  }

  lemma InRange(tasks: seq<Task>, tree: Tree)
    requires Shape(tasks, tree, None, 0)
    ensures forall i :: i in Ids(tree) ==> i < |tasks|
  {
    forall i | i in Ids(tree) ensures i < |tasks| {
      ShapeAt(tasks, tree, None, 0, i);
    }
  }

  lemma IdleWide(narrow: nat, wide: nat)
    requires narrow <= wide
    ensures Widen(Idle(narrow), wide) == Idle(wide) && Idle(wide).stack == []
  {
    assert Widen(Idle(narrow), wide).env == Idle(wide).env;
  }

  lemma WidenOk(image: Image, small: Limits, large: Limits, t: Task)
    requires TaskOk(image, small, t)
    requires small.framesPerTask <= large.framesPerTask && small.bindingsPerTask <= large.bindingsPerTask
    ensures TaskOk(image, large, Widen(t, large.bindingsPerTask))
  {
    forall k | 0 <= k < |t.stack| ensures FrameOk(image, large.bindingsPerTask, t.stack[k]) {
      assert FrameOk(image, small.bindingsPerTask, t.stack[k]);
    }
  }

  /** Every host call keeps the live tasks a tree of joining parents with two live children. */
  lemma ApplyKeeps(s: Setting, m: Machine, tree: Tree, move: Move) returns (grown: Tree)
    requires Inv(s, m, tree) && Legal(m, move)
    ensures Inv(s, Apply(s, m, move).m, grown)
  {
    grown := tree;
    match move
    case Tick(layout) =>
      if !Terminal(m.tasks[0].state) {
        CancelKeeps(s, m, tree);
        grown := ScheduleKeeps(s, if QuotaSpent(m) then Cancel(m) else m, tree, layout);
      }
    case Respond(i, ticket, event) => DeliverKeeps(s, m, tree, i, ticket, event);
    case Abort => CancelKeeps(s, m, tree);
    case Resize(tasks, capacity, frames, bindings) => GrowKeeps(s, m, tree, tasks, capacity, frames, bindings);
  }

  // ----- the transition inside a pass -----

  function Quoted(m: Machine): Machine
    requires |m.tasks| > 0
  {
    if QuotaSpent(m) then Cancel(m) else m
  }

  /** The machine and task of the transition a scheduling pass performs, if any. */
  function Acting(s: Setting, m: Machine): (r: Option<(Machine, nat)>)
    requires |m.tasks| > 0
    ensures r.Some? ==> r.value.1 < |r.value.0.tasks|
  {
    var n := Quoted(m);
    var pick := Scan(n.tasks, n.cursor, 0);
    if Terminal(m.tasks[0].state) || pick.None? || n.tasks[pick.value].state.Waiting? then None
    else if n.aborting && n.cleanupSteps >= n.limits.cleanupSteps then None
    else Some((Spend(SetTask(n, pick.value, Convert(s.h, n.tasks[pick.value])), pick.value), pick.value))
  }

  /** What a pass without a transition does: report the result, report what blocks it, or halt. */
  lemma IdleIs(s: Setting, m: Machine, layout: seq<FrameKind>) returns (x: Option<nat>)
    requires |m.tasks| > 0 && Acting(s, m).None?
    ensures Terminal(m.tasks[0].state) ==>
      x.None? && Iterate(s, m, layout) == Turn(m, Some(Finished(m.tasks[0].state.outcome)))
    ensures !Terminal(m.tasks[0].state) && x.None? ==>
      var turn := Iterate(s, m, layout);
      turn.m == Quoted(m) && turn.out.Some? && (turn.out.value.Blocked? || turn.out.value.Withdraw?)
    ensures !Terminal(m.tasks[0].state) && x.Some? ==>
      var n := Quoted(m);
      && x.value < |n.tasks| && Look(n.tasks, x.value) == Run
      && Iterate(s, m, layout) == Halt(s, SetTask(n, x.value, Convert(s.h, n.tasks[x.value])), layout)
  {
    hide Scan, Transition, Halt, Convert, Cancel;
    QuotedRoot(m);
    x := None;
    if !Terminal(m.tasks[0].state) {
      var n := Quoted(m);
      var pick := Scan(n.tasks, n.cursor, 0);
      if pick.Some? && !n.tasks[pick.value].state.Waiting? {
        x := pick;
      }
    }
  }

  /** A pass prepares its task without touching anyone's stack, bindings or input. */
  ghost predicate Prepared(m: Machine, n: Machine) {
    && |n.tasks| == |m.tasks| && n.limits == m.limits && n.capacity == m.capacity && n.ticket == m.ticket
    && forall k :: 0 <= k < |m.tasks| ==>
         n.tasks[k] == m.tasks[k].(state := n.tasks[k].state, cancelled := n.tasks[k].cancelled)
  }

  lemma ActingMoves(s: Setting, m: Machine, layout: seq<FrameKind>)
    requires |m.tasks| > 0
    ensures var a := Acting(s, m);
      && (a.Some? ==> Iterate(s, m, layout) == Transition(s, a.value.0, a.value.1) && Prepared(m, a.value.0))
      && (a.None? ==> Prepared(m, Iterate(s, m, layout).m))
  {
    hide Transition, Scan;
  }

  lemma ActingKeeps(s: Setting, m: Machine, tree: Tree)
    requires Inv(s, m, tree)
    ensures var a := Acting(s, m);
      a.Some? ==>
        && Inv(s, a.value.0, tree) && a.value.1 in Ids(tree) && !Terminal(a.value.0.tasks[0].state)
        && Look(Quoted(m).tasks, a.value.1) == Run
  {
    hide CleanedIn, Occupied, Shape, Inv, Scan, FaultResult, Cancel;
    RootLive(s, m, tree);
    CancelKeeps(s, m, tree);
    var n := Quoted(m);
    QuotedRoot(m);
    if Acting(s, m).Some? {
      var i := Acting(s, m).value.1;
      assert Look(n.tasks, i) == Run;
      ConvertKeeps(s, n, tree, i);
      ConvertRuns(s.h, n.tasks, i);
      SpendKeeps(s, SetTask(n, i, Convert(s.h, n.tasks[i])), tree, i);
    }
  }

  lemma QuotedRoot(m: Machine)
    requires |m.tasks| > 0
    ensures |Quoted(m).tasks| == |m.tasks| && Quoted(m).tasks[0].state == m.tasks[0].state
  {
  }

  lemma ConvertRuns(h: Values, tasks: seq<Task>, i: nat)
    requires 0 < |tasks| && i < |tasks| && !Terminal(tasks[0].state)
    ensures !Terminal(tasks[i := Convert(h, tasks[i])][0].state)
  {
  }

  // ----- runs -----

  ghost predicate IsRun(s: Setting, states: seq<Machine>, moves: seq<Move>) {
    && |states| == |moves| + 1
    && (forall k :: 0 <= k < |states| ==> |states[k].tasks| > 0)
    && forall k :: 0 <= k < |moves| ==> Legal(states[k], moves[k]) && states[k + 1] == Apply(s, states[k], moves[k]).m
  }

  /** A stretch of a run is a run. */
  lemma RunSlice(s: Setting, states: seq<Machine>, moves: seq<Move>, j: nat, k: nat)
    requires IsRun(s, states, moves) && j <= k <= |moves|
    ensures IsRun(s, states[j..k + 1], moves[j..k])
  {
    hide Apply, Legal;
    var part, calls := states[j..k + 1], moves[j..k];
    forall t | 0 <= t < |calls| ensures Legal(part[t], calls[t]) && part[t + 1] == Apply(s, part[t], calls[t]).m {
      assert calls[t] == moves[j + t] && part[t] == states[j + t] && part[t + 1] == states[j + t + 1];
    }
  }

  /** The storage, input and context an execution is created with. */
  datatype Launch = Launch(tasks: nat, capacity: nat, limits: Limits, input: V, context: nat)

  /** What `Execution::new` checks before it accepts an image and its storage. */
  predicate Admits(s: Setting, l: Launch) {
    && Valid(s.image)
    && 0 < l.tasks <= U32_MAX && l.capacity <= U32_MAX
    && s.image.bindings <= l.limits.bindingsPerTask
    && (l.limits.maxSteps.Some? ==> l.limits.maxSteps.value <= U64_MAX)
  }

  function First(s: Setting, l: Launch): Machine
    requires Admits(s, l)
  {
    Initial(s.image, l.tasks, l.capacity, l.limits, l.input, l.context)
  }

  /** A run of host calls on a newly admitted execution. */
  ghost predicate Launched(s: Setting, l: Launch, states: seq<Machine>, moves: seq<Move>) {
    Admits(s, l) && IsRun(s, states, moves) && states[0] == First(s, l)
  }

  lemma FirstInv(s: Setting, l: Launch)
    requires Admits(s, l)
    ensures Inv(s, First(s, l), Solo(0))
  {
    OccupiedPadded([], First(s, l).tasks);
  }

  lemma {:induction false} RunKeeps(s: Setting, states: seq<Machine>, moves: seq<Move>, tree: Tree)
    returns (grown: Tree)
    requires IsRun(s, states, moves) && Inv(s, states[0], tree)
    ensures Inv(s, states[|moves|], grown)
  {
    if moves == [] {
      grown := tree;
    } else {
      var next := ApplyKeeps(s, states[0], tree, moves[0]);
      grown := RunKeeps(s, states[1..], moves[1..], next);
    }
  }

  /** Every state of a launched run has its tree of live tasks. */
  lemma StateAt(s: Setting, l: Launch, states: seq<Machine>, moves: seq<Move>, k: nat) returns (tree: Tree)
    requires Launched(s, l, states, moves) && k <= |moves|
    ensures Inv(s, states[k], tree)
  {
    FirstInv(s, l);
    tree := RunKeeps(s, states[..k + 1], moves[..k], Solo(0));
  }
}
