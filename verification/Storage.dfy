/** A machine given the storage its image needs never runs out of task slots or frames. */
module Storage {
  import opened Program
  import opened Machine
  import opened Stacks
  import opened Forest
  import opened Runs
  import opened Bounds
  import opened Indices

  // ----- depth of each stack on its own -----

  /** Branches of a fork start on stacks of their own, within the same depth. */
  ghost predicate BranchTable(image: Image, own: nat -> nat, depth: nat) {
    forall n :: 0 <= n < |image.nodes| && own(n) <= depth && image.nodes[n].kind.Fork? ==>
      own(image.nodes[n].kind.left) <= depth && own(image.nodes[n].kind.right) <= depth
  }

  ghost predicate Shallow(s: Setting, own: nat -> nat, depth: nat, m: Machine) {
    && Table(s.image, POOL, own, depth) && BranchTable(s.image, own, depth)
    && forall i :: 0 <= i < |m.tasks| ==> Cost(s.image, POOL, own, m.tasks[i]) <= depth
  }

  lemma IdleCost(image: Image, k: Metric, need: nat -> nat, width: nat)
    ensures Cost(image, k, need, Idle(width)) == k.base
  {
  }

  lemma JoinShallow(s: Setting, own: nat -> nat, depth: nat, m: Machine, tree: Tree, i: nat)
    requires Inv(s, m, tree) && Shallow(s, own, depth, m) && i in Ids(tree) && i < |m.tasks|
      && m.tasks[i].state.Joining?
    ensures Shallow(s, own, depth, JoinStep(s, m, i).m)
  {
    hide Table, BranchTable, JoinStep, Raced, Conclude, Inv, Successor, Merged, Cost, Idle;
    var j := m.tasks[i].state.pair;
    LiveTask(s, m, tree, i);
    JoinEffect(s, m, tree, i);
    var raced := Raced(m.tasks, j);
    var n := JoinStep(s, m, i).m;
    var u := if BothDone(m.tasks, j) then Conclude(s, raced[i], j.node, Merged(s.h, m.tasks, j)).task else raced[i];
    if BothDone(m.tasks, j) {
      ConcludedCost(s, POOL, own, raced[i], Merged(s.h, m.tasks, j));
    }
    IdleCost(s.image, POOL, own, m.limits.bindingsPerTask);
    CostAlike(s.image, POOL, own, m.tasks[i], raced[i]);
    forall k | 0 <= k < |n.tasks| ensures Cost(s.image, POOL, own, n.tasks[k]) <= depth {
      CostAlike(s.image, POOL, own, m.tasks[k], raced[k]);
      assert n.tasks[k] == raced[k] || n.tasks[k] == u || n.tasks[k] == Idle(m.limits.bindingsPerTask);
    }
  }

  lemma SpawnShallow(s: Setting, own: nat -> nat, depth: nat, m: Machine, tree: Tree, i: nat)
    requires Inv(s, m, tree) && Shallow(s, own, depth, m) && i in Ids(tree) && i < |m.tasks| && m.tasks[i].state.Ready?
    requires s.image.nodes[m.tasks[i].pc].kind.Fork?
    ensures Shallow(s, own, depth, Transition(s, m, i).m)
  {
    hide Transition, SpawnTasks, Inv, Table, BranchTable, Cost, Child;
    LiveTask(s, m, tree, i);
    var kind := s.image.nodes[m.tasks[i].pc].kind;
    var t, input := Armed(s, m.tasks[i]), m.tasks[i].input.value;
    ForkIsSpawn(s, m, i);
    SpawnEffect(s, m, i, t, kind.left, kind.right, kind.join, input);
    SpawnJoins(s, m, i, t, kind.left, kind.right, kind.join, input);
    TrappedCost(s, POOL, own, m.tasks[i], t, Tasks);
    JoiningCost(s, own, depth, m.tasks[i], t);
    var n := SpawnTasks(s, m, i, t, kind.left, kind.right, kind.join, input);
    forall k | 0 <= k < |n.tasks| ensures Cost(s.image, POOL, own, n.tasks[k]) <= depth {
      if k == i {
        if n.tasks[i].state.Joining? {
          JoiningCostOf(s, own, depth, t, n.tasks[i]);
        }
      } else if n.tasks[k] != m.tasks[k] {
        IdleAt(s, m, tree, k);
        ChildCost(s.image, own, m.tasks[k], i, t, kind.left, input);
        ChildCost(s.image, own, m.tasks[k], i, t, kind.right, input);
      }
    }
  }

  lemma SpawnJoins(s: Setting, m: Machine, i: nat, t: Task, left: nat, right: nat, join: Join, input: V)
    requires i < |m.tasks|
    ensures var n := SpawnTasks(s, m, i, t, left, right, join, input);
      |n.tasks| == |m.tasks| && (n.tasks[i].state.Joining? ==> n.tasks[i].state.pair.node == t.pc)
  {
    hide FaultResult;
  }

  lemma IdleAt(s: Setting, m: Machine, tree: Tree, k: nat)
    requires Inv(s, m, tree) && k < |m.tasks| && m.tasks[k].state.Free?
    ensures m.tasks[k].stack == []
  {
  }

  lemma JoiningCost(s: Setting, own: nat -> nat, depth: nat, was: Task, t: Task)
    requires Table(s.image, POOL, own, depth) && BranchTable(s.image, own, depth)
    requires t == was.(input := t.input) && t.state.Ready? && s.image.Has(t.pc) && s.image.nodes[t.pc].kind.Fork?
    requires Cost(s.image, POOL, own, was) <= depth
    ensures var kind := s.image.nodes[t.pc].kind;
      && own(kind.left) <= depth && own(kind.right) <= depth
      && StackNeed(s.image, POOL, own, t.stack) <= depth
      && |t.stack| + NextNeed(s.image, own, t.pc) <= depth
  {
    assert Covered(POOL, own, s.image.nodes[t.pc], own(t.pc));
  }

  lemma JoiningCostOf(s: Setting, own: nat -> nat, depth: nat, t: Task, u: Task)
    requires u == t.(state := u.state) && u.state.Joining? && u.state.pair.node == t.pc
    requires StackNeed(s.image, POOL, own, t.stack) <= depth
    requires |t.stack| + NextNeed(s.image, own, t.pc) <= depth
    ensures Cost(s.image, POOL, own, u) <= depth
  {
  }

  lemma ChildCost(image: Image, own: nat -> nat, slot: Task, i: nat, t: Task, pc: nat, input: V)
    requires slot.stack == []
    ensures Cost(image, POOL, own, Child(slot, i, t, pc, input)) == own(pc)
  {
  }

  lemma TransitionShallow(s: Setting, own: nat -> nat, depth: nat, m: Machine, tree: Tree, i: nat)
    requires Inv(s, m, tree) && Shallow(s, own, depth, m) && i in Ids(tree) && i < |m.tasks|
    ensures Shallow(s, own, depth, Transition(s, m, i).m)
  {
    hide Inv, Cost, Table, BranchTable, Occupied, Unwind, Begin, JoinStep, Settle, Successor;
    LiveTask(s, m, tree, i);
    var t := m.tasks[i];
    var max := m.limits.framesPerTask;
    match t.state
    case Returning(_) =>
      UnwindOk(s, t, max, Room(m));
      UnwindCost(s, POOL, own, t, max, Room(m));
      LeafSettles(s, m, i, Unwind(s, t, max, Room(m)));
    case Joining(_) => JoinShallow(s, own, depth, m, tree, i);
    case Ready =>
      if s.image.nodes[t.pc].kind.Fork? {
        SpawnShallow(s, own, depth, m, tree, i);
      } else {
        BeginOk(s, t, max, Room(m), m.ticket);
        BeginCost(s, POOL, own, depth, t, max, Room(m), m.ticket);
        LeafSettles(s, m, i, Begin(s, t, max, Room(m), m.ticket));
      }
    case _ =>
  }

  lemma PreparedShallow(s: Setting, own: nat -> nat, depth: nat, m: Machine, n: Machine)
    requires Shallow(s, own, depth, m) && Prepared(m, n)
    requires forall k :: 0 <= k < |n.tasks| ==>
      n.tasks[k].state == m.tasks[k].state || n.tasks[k].state.Returning? || n.tasks[k].state.Halted?
    ensures Shallow(s, own, depth, n)
  {
    hide Table, BranchTable, StackNeed;
  }

  lemma PassStates(s: Setting, m: Machine, layout: seq<FrameKind>)
    requires |m.tasks| > 0
    ensures var a := Acting(s, m);
      var n := if a.Some? then a.value.0 else Iterate(s, m, layout).m;
      |n.tasks| == |m.tasks| && forall k :: 0 <= k < |n.tasks| ==>
        n.tasks[k].state == m.tasks[k].state || n.tasks[k].state.Returning? || n.tasks[k].state.Halted?
  {
    hide Transition, Scan, TerminalFault;
  }

  lemma ApplyShallow(s: Setting, own: nat -> nat, depth: nat, m: Machine, tree: Tree, move: Move)
    requires Inv(s, m, tree) && Shallow(s, own, depth, m) && Legal(m, move) && !Appends(move)
    ensures Shallow(s, own, depth, Apply(s, m, move).m)
  {
    hide Iterate, Deliver, Inv, Shallow, Cancel, Grow, Pending;
    RootLive(s, m, tree);
    match move
    case Tick(layout) => TickShallow(s, own, depth, m, tree, layout);
    case Respond(i, ticket, event) =>
      if Pending(m, i, ticket) {
        RespondShallow(s, own, depth, m, tree, i, ticket, event);
      } else {
        StaleIs(s, m, i, ticket, event);
      }
    case Abort => AbortShallow(s, own, depth, m);
    case Resize(tasks, capacity, frames, bindings) => GrowShallow(s, own, depth, m, tasks, capacity, frames, bindings);
  }

  lemma RespondShallow(
    s: Setting, own: nat -> nat, depth: nat, m: Machine, tree: Tree, i: nat, ticket: nat, event: HostEvent)
    requires Inv(s, m, tree) && Shallow(s, own, depth, m) && |m.tasks| > 0 && Pending(m, i, ticket) && !event.Continue?
    ensures Shallow(s, own, depth, Deliver(s, m, i, ticket, event).m)
  {
    hide Answer, Cost, Inv, Table, BranchTable, Occupied;
    WaiterLive(s, m, tree, i);
    LiveTask(s, m, tree, i);
    AnswerCost(s, POOL, own, depth, m.tasks[i], event, m.limits.framesPerTask, Room(m));
  }

  lemma AbortShallow(s: Setting, own: nat -> nat, depth: nat, m: Machine)
    requires Shallow(s, own, depth, m) && |m.tasks| > 0
    ensures Shallow(s, own, depth, Cancel(m))
  {
    hide Shallow;
    AlikeShallow(s, own, depth, m, Cancel(m));
  }

  lemma GrowShallow(s: Setting, own: nat -> nat, depth: nat, m: Machine, tasks: nat, capacity: nat, frames: nat,
      bindings: nat)
    requires Shallow(s, own, depth, m) && |m.tasks| <= tasks
    ensures Shallow(s, own, depth, Grow(m, tasks, capacity, frames, bindings))
  {
    hide Shallow, Grow;
    GrowParts(m, tasks, capacity, frames, bindings);
    forall i | 0 <= i < tasks
      ensures var g := Grow(m, tasks, capacity, frames, bindings);
        if i < |m.tasks| then SameNeeds(m.tasks[i], g.tasks[i]) else g.tasks[i] == Idle(bindings)
    {
      GrownTask(m, tasks, capacity, frames, bindings, i);
    }
    AlikeShallow(s, own, depth, m, Grow(m, tasks, capacity, frames, bindings));
  }

  lemma AlikeShallow(s: Setting, own: nat -> nat, depth: nat, m: Machine, n: Machine)
    requires Shallow(s, own, depth, m) && |m.tasks| <= |n.tasks|
    requires forall k :: 0 <= k < |m.tasks| ==> SameNeeds(m.tasks[k], n.tasks[k])
    requires forall k :: |m.tasks| <= k < |n.tasks| ==> n.tasks[k] == Idle(n.limits.bindingsPerTask)
    ensures Shallow(s, own, depth, n)
  {
    hide Table, BranchTable, Cost;
    forall k | 0 <= k < |n.tasks| ensures Cost(s.image, POOL, own, n.tasks[k]) <= depth {
      if k < |m.tasks| {
        CostAlike(s.image, POOL, own, m.tasks[k], n.tasks[k]);
      } else {
        IdleCost(s.image, POOL, own, n.limits.bindingsPerTask);
      }
    }
  }

  lemma TickShallow(s: Setting, own: nat -> nat, depth: nat, m: Machine, tree: Tree, layout: seq<FrameKind>)
    requires Inv(s, m, tree) && Shallow(s, own, depth, m)
    ensures Shallow(s, own, depth, Iterate(s, m, layout).m)
  {
    var a := Acting(s, m);
    ActingMoves(s, m, layout);
    ActingKeeps(s, m, tree);
    PassStates(s, m, layout);
    hide Acting, Iterate, Transition, Inv, Shallow;
    if a.None? {
      PreparedShallow(s, own, depth, m, Iterate(s, m, layout).m);
    } else {
      PreparedShallow(s, own, depth, m, a.value.0);
      TransitionShallow(s, own, depth, a.value.0, tree, a.value.1);
    }
  }

  // ----- counting -----

  function Size(tree: Tree): nat {
    match tree
    case Solo(_) => 1
    case Pair(_, l, r) => 1 + Size(l) + Size(r)
  }

  lemma {:induction false} IdsCount(tasks: seq<Task>, tree: Tree)
    requires Distinct(tree) && forall i :: i in Ids(tree) ==> i < |tasks|
    ensures |Ids(tree)| == Size(tree) == TreeUse(TASKS, tasks, tree)
  {
    assert tree.id in Ids(tree);
    if tree.Pair? {
      IdsCount(tasks, tree.left);
      IdsCount(tasks, tree.right);
      assert |{tree.id} + Ids(tree.left)| == 1 + Size(tree.left);
      assert Ids(tree) == ({tree.id} + Ids(tree.left)) + Ids(tree.right);
    }
  }

  /** Enough unused slots means that the fork's search for two of them succeeds. */
  lemma TwoFree(tasks: seq<Task>, live: set<nat>)
    requires forall i: nat :: i < |tasks| && !tasks[i].state.Free? ==> i in live
    requires |live| + 2 <= |tasks|
    ensures FirstFree(tasks, 0).Some? && FirstFree(tasks, FirstFree(tasks, 0).value + 1).Some?
  {
    var a := FirstFree(tasks, 0);
    var all := Below(|tasks|);
    if a.None? {
      assert all <= live;
      SubsetSize(all, live);
    } else if FirstFree(tasks, a.value + 1).None? {
      assert all - {a.value} <= live;
      SubsetSize(all - {a.value}, live);
    }
  }

  function Emptied(tasks: seq<Task>, ids: set<nat>): seq<Task> {
    seq(|tasks|, i requires 0 <= i < |tasks| => if i in ids then tasks[i].(stack := []) else tasks[i])
  }

  lemma {:induction false} EmptiedUse(tasks: seq<Task>, tree: Tree)
    requires Distinct(tree) && forall i :: i in Ids(tree) ==> i < |tasks|
    ensures Occupied(Emptied(tasks, Ids(tree))) + TreeUse(POOL, tasks, tree) == Occupied(tasks)
    decreases tree
  {
    hide Occupied;
    var i := tree.id;
    assert i in Ids(tree);
    var one := Emptied(tasks, {i});
    EmptiedOne(tasks, i);
    match tree
    case Solo(_) =>
    case Pair(_, l, r) =>
      EmptiedUse(one, l);
      UseFrame(tasks, one, l);
      var two := Emptied(one, Ids(l));
      EmptiedUse(two, r);
      UseFrame(tasks, two, r);
      EmptiedTwice(tasks, {i}, Ids(l));
      EmptiedTwice(tasks, {i} + Ids(l), Ids(r));
  }

  lemma EmptiedOne(tasks: seq<Task>, i: nat)
    requires i < |tasks|
    ensures Occupied(Emptied(tasks, {i})) + |tasks[i].stack| == Occupied(tasks)
  {
    OccupiedSet(tasks, i, tasks[i].(stack := []));
    assert Emptied(tasks, {i}) == tasks[i := tasks[i].(stack := [])];
  }

  lemma EmptiedTwice(tasks: seq<Task>, a: set<nat>, b: set<nat>)
    ensures Emptied(Emptied(tasks, a), b) == Emptied(tasks, a + b)
  {
  }

  lemma {:induction false} UseFrame(tasks: seq<Task>, other: seq<Task>, tree: Tree)
    requires |tasks| == |other| && forall i :: i in Ids(tree) ==> i < |tasks| && other[i].stack == tasks[i].stack
    ensures TreeUse(POOL, other, tree) == TreeUse(POOL, tasks, tree)
  {
    assert tree.id in Ids(tree);
    if tree.Pair? {
      UseFrame(tasks, other, tree.left);
      UseFrame(tasks, other, tree.right);
    }
  }

  /** The frames in the pool are exactly the frames of the live tasks. */
  lemma PoolUse(s: Setting, m: Machine, tree: Tree)
    requires Inv(s, m, tree)
    ensures Occupied(m.tasks) == TreeUse(POOL, m.tasks, tree)
  {
    IdsInRange(s, m, tree);
    EmptiedUse(m.tasks, tree);
    NoFrames(Emptied(m.tasks, Ids(tree)));
  }

  // ----- no storage fault -----

  /** The fault raised by a transition of task `i`, if any. */
  function Raised(s: Setting, m: Machine, i: nat): Option<Fault>
    requires i < |m.tasks|
  {
    var t := m.tasks[i];
    match t.state
    case Returning(_) => Trapping(Unwind(s, t, m.limits.framesPerTask, Room(m)))
    case Joining(j) =>
      if BothDone(m.tasks, j) then Trapping(Conclude(s, Raced(m.tasks, j)[i], j.node, Merged(s.h, m.tasks, j)))
      else None
    case Ready =>
      var l := Begin(s, t, m.limits.framesPerTask, Room(m), m.ticket);
      if l.Spawn? && !TwoSlots(m.tasks) then Some(Tasks) else Trapping(l)
    case _ => None
  }

  function Trapping(l: Local): Option<Fault> { if l.Trap? then Some(l.fault) else None }

  predicate TwoSlots(tasks: seq<Task>) {
    var a := FirstFree(tasks, 0);
    a.Some? && FirstFree(tasks, a.value + 1).Some?
  }

  /** Starting an instruction faults for lack of frames only when its frames do not fit. */
  lemma BeginFaults(s: Setting, t: Task, max: nat, room: int, ticket: nat)
    requires t.state.Ready? && s.image.Has(t.pc)
    ensures var l := Begin(s, t, max, room, ticket);
      l.Trap? ==> l.fault != Tasks && (l.fault == Frames ==> !Fits(t, Pushes(s.image.nodes[t.pc].kind), max, room))
  {
  }

  lemma NoTasksFault(s: Setting, need: nat -> nat, cap: nat, m: Machine, tree: Tree, i: nat)
    requires Within(s, TASKS, need, cap, m, tree) && cap <= |m.tasks| && i in Ids(tree) && i < |m.tasks|
    requires m.tasks[i].state.Ready? && s.image.nodes[m.tasks[i].pc].kind.Fork?
    ensures TwoSlots(m.tasks)
  {
    LeafCost(s, TASKS, need, cap, m, tree, i);
    IdsInRange(s, m, tree);
    ForkNeeds(s, TASKS, need, cap, m.tasks[i].pc);
    IdsCount(m.tasks, tree);
    TwoFree(m.tasks, Ids(tree));
  }

  /** A leaf's frames fit both its own depth and the shared pool. */
  lemma FramesFit(
    s: Setting, need: nat -> nat, cap: nat, own: nat -> nat, depth: nat, m: Machine, tree: Tree, i: nat, n: nat)
    requires Within(s, POOL, need, cap, m, tree) && cap <= m.capacity
    requires Shallow(s, own, depth, m) && depth <= m.limits.framesPerTask
    requires i in Ids(tree) && i < |m.tasks| && JoinOf(m.tasks[i].state).None?
    requires |m.tasks[i].stack| + n <= Cost(s.image, POOL, need, m.tasks[i])
    requires |m.tasks[i].stack| + n <= Cost(s.image, POOL, own, m.tasks[i])
    ensures Fits(m.tasks[i], n, m.limits.framesPerTask, Room(m))
  {
    LeafCost(s, POOL, need, cap, m, tree, i);
    PoolUse(s, m, tree);
    hide Cost, Table, ForkTable, BranchTable, Inv;
  }

  lemma StartUses(s: Setting, need: nat -> nat, cap: nat, t: Task)
    requires Table(s.image, POOL, need, cap) && Cost(s.image, POOL, need, t) <= cap
    requires t.state.Ready? && s.image.Has(t.pc) && t.input.Some?
    ensures |t.stack| + Pushes(s.image.nodes[t.pc].kind) <= Cost(s.image, POOL, need, t)
  {
    assert Covered(POOL, need, s.image.nodes[t.pc], need(t.pc));
    OpeningCost(s.image, POOL, need, t.pc, t.input.value, |t.stack|, Cost(s.image, POOL, need, t));
  }

  lemma ScopeUses(s: Setting, need: nat -> nat, cap: nat, t: Task)
    requires Table(s.image, POOL, need, cap) && Cost(s.image, POOL, need, t) <= cap
    requires t.state.Waiting? && s.image.Has(t.state.node) && s.image.nodes[t.state.node].kind.Scope?
    ensures |t.stack| + 2 <= Cost(s.image, POOL, need, t)
  {
    assert Covered(POOL, need, s.image.nodes[t.state.node], need(t.state.node));
  }

  /** A machine within its bound on task slots. */
  ghost predicate TasksBounded(s: Setting, m: Machine, tree: Tree, tasks: nat -> nat, slots: nat) {
    Within(s, TASKS, tasks, slots, m, tree) && slots <= |m.tasks|
  }

  /** A machine within its bounds on pool frames and on the depth of each stack. */
  ghost predicate FramesBounded(s: Setting, m: Machine, tree: Tree, pool: nat -> nat, frames: nat, own: nat -> nat,
      depth: nat) {
    && Within(s, POOL, pool, frames, m, tree) && frames <= m.capacity
    && Shallow(s, own, depth, m) && depth <= m.limits.framesPerTask
  }

  /** Within its bound no transition runs out of task slots. */
  lemma BoundedFindsSlots(s: Setting, m: Machine, tree: Tree, i: nat, tasks: nat -> nat, slots: nat)
    requires TasksBounded(s, m, tree, tasks, slots) && i in Ids(tree) && i < |m.tasks|
    ensures Raised(s, m, i) != Some(Tasks)
  {
    ShapeAt(m.tasks, tree, None, 0, i);
    var t := m.tasks[i];
    var max := m.limits.framesPerTask;
    hide Cost, Occupied, CleanedIn, Restored, RestoredContext, Table, ForkTable, TreeCost;
    match t.state
    case Returning(_) => UnwindOk(s, t, max, Room(m));
    case Joining(_) => JoinEffect(s, m, tree, i);
    case Ready =>
      BeginOk(s, t, max, Room(m), m.ticket);
      BeginFaults(s, t, max, Room(m), m.ticket);
      if s.image.nodes[t.pc].kind.Fork? {
        NoTasksFault(s, tasks, slots, m, tree, i);
      }
      hide Begin;
    case _ =>
  }

  /** Within its bounds no transition runs out of frames. */
  lemma BoundedFindsFrames(
    s: Setting, m: Machine, tree: Tree, i: nat, pool: nat -> nat, frames: nat, own: nat -> nat, depth: nat)
    requires FramesBounded(s, m, tree, pool, frames, own, depth) && i in Ids(tree) && i < |m.tasks|
    ensures Raised(s, m, i) != Some(Frames)
  {
    ShapeAt(m.tasks, tree, None, 0, i);
    var t := m.tasks[i];
    var max := m.limits.framesPerTask;
    hide Cost, Occupied, CleanedIn, Restored, RestoredContext, Table, ForkTable, BranchTable, TreeCost;
    match t.state
    case Returning(_) => UnwindOk(s, t, max, Room(m));
    case Joining(_) => JoinEffect(s, m, tree, i);
    case Ready =>
      BeginFaults(s, t, max, Room(m), m.ticket);
      LeafCost(s, POOL, pool, frames, m, tree, i);
      StartUses(s, pool, frames, t);
      StartUses(s, own, depth, t);
      FramesFit(s, pool, frames, own, depth, m, tree, i, Pushes(s.image.nodes[t.pc].kind));
      hide Begin;
    case _ =>
  }

  /** Within its bounds no response is refused for lack of frames. */
  lemma BoundedNeverRefuses(
    s: Setting, m: Machine, tree: Tree, i: nat, ticket: nat, event: HostEvent,
    pool: nat -> nat, frames: nat, own: nat -> nat, depth: nat)
    requires FramesBounded(s, m, tree, pool, frames, own, depth) && !event.Continue?
    ensures Deliver(s, m, i, ticket, event).refusal != Some(Frames)
  {
    if Pending(m, i, ticket) && event.Enter? {
      ShapeAt(m.tasks, tree, None, 0, i);
      hide Cost, Occupied, CleanedIn, Table, ForkTable, BranchTable, TreeCost, Shape;
      var t := m.tasks[i];
      if s.image.nodes[t.state.node].kind.Scope? {
        LeafCost(s, POOL, pool, frames, m, tree, i);
        ScopeUses(s, pool, frames, t);
        ScopeUses(s, own, depth, t);
        FramesFit(s, pool, frames, own, depth, m, tree, i, 2);
      }
    }
  }

  // ----- whole runs -----

  lemma TransitionSizes(s: Setting, m: Machine, i: nat)
    requires i < |m.tasks|
    ensures var n := Transition(s, m, i).m;
      |n.tasks| == |m.tasks| && n.capacity == m.capacity && n.limits == m.limits
  {
    hide Unwind, Begin, Conclude, Occupied, FaultResult, Raced, Merged, Idle, Child;
  }

  lemma ApplySizes(s: Setting, m: Machine, move: Move)
    requires |m.tasks| > 0 && Legal(m, move)
    ensures var n := Apply(s, m, move).m;
      |m.tasks| <= |n.tasks| && m.capacity <= n.capacity && m.limits.framesPerTask <= n.limits.framesPerTask
  {
    hide Acting, Iterate, Transition, Answer, Occupied;
    match move
    case Tick(layout) =>
      ActingMoves(s, m, layout);
      var a := Acting(s, m);
      if a.Some? {
        TransitionSizes(s, a.value.0, a.value.1);
      }
    case Respond(_, _, _) =>
    case Abort =>
    case Resize(_, _, _, _) =>
  }

  ghost predicate AppendsNothing(moves: seq<Move>) { forall j :: 0 <= j < |moves| ==> !Appends(moves[j]) }

  lemma {:induction false} RunFindsSlots(
    s: Setting, states: seq<Machine>, moves: seq<Move>, k: nat, tree: Tree, tasks: nat -> nat, slots: nat)
      returns (grown: Tree)
    requires IsRun(s, states, moves) && k <= |moves| && AppendsNothing(moves)
    requires TasksBounded(s, states[0], tree, tasks, slots)
    ensures TasksBounded(s, states[k], grown, tasks, slots)
    decreases k
  {
    if k == 0 {
      grown := tree;
    } else {
      var before := RunFindsSlots(s, states, moves, k - 1, tree, tasks, slots);
      ApplySizes(s, states[k - 1], moves[k - 1]);
      hide Within, Apply, Legal, Appends;
      grown := ApplyWithin(s, TASKS, tasks, slots, states[k - 1], before, moves[k - 1]);
    }
  }

  lemma {:induction false} RunFindsFrames(
    s: Setting, states: seq<Machine>, moves: seq<Move>, k: nat, tree: Tree,
    pool: nat -> nat, frames: nat, own: nat -> nat, depth: nat) returns (grown: Tree)
    requires IsRun(s, states, moves) && k <= |moves| && AppendsNothing(moves)
    requires FramesBounded(s, states[0], tree, pool, frames, own, depth)
    ensures FramesBounded(s, states[k], grown, pool, frames, own, depth)
    decreases k
  {
    if k == 0 {
      grown := tree;
    } else {
      var before := RunFindsFrames(s, states, moves, k - 1, tree, pool, frames, own, depth);
      ApplySizes(s, states[k - 1], moves[k - 1]);
      WithinInv(s, POOL, pool, frames, states[k - 1], before);
      hide Within, Shallow, Apply, Legal, Appends, Inv;
      ApplyShallow(s, own, depth, states[k - 1], before, moves[k - 1]);
      grown := ApplyWithin(s, POOL, pool, frames, states[k - 1], before, moves[k - 1]);
    }
  }

  lemma WithinInv(s: Setting, k: Metric, need: nat -> nat, cap: nat, m: Machine, tree: Tree)
    requires Within(s, k, need, cap, m, tree)
    ensures Inv(s, m, tree)
  {
  }

  /** A run with at least `slots` task slots, where `tasks` is a table of task needs within
      `slots`, never fails a fork for lack of slots. */
  lemma SlotsNeverRunOut(
    s: Setting, l: Launch, states: seq<Machine>, moves: seq<Move>, k: nat, tasks: nat -> nat, slots: nat)
    requires Launched(s, l, states, moves) && k < |moves| && AppendsNothing(moves)
    requires Table(s.image, TASKS, tasks, slots) && ForkTable(s.image, TASKS, tasks, slots)
    requires tasks(s.image.entry) <= slots <= l.tasks
    ensures var a := Acting(s, states[k]); a.Some? ==> Raised(s, a.value.0, a.value.1) != Some(Tasks)
  {
    FirstInv(s, l);
    assert Covered(TASKS, tasks, s.image.nodes[s.image.entry], tasks(s.image.entry));
    assert TasksBounded(s, states[0], Solo(0), tasks, slots);
    var tree := RunFindsSlots(s, states, moves, k, Solo(0), tasks, slots);
    var m := states[k];
    if Acting(s, m).Some? {
      WithinInv(s, TASKS, tasks, slots, m, tree);
      PreparedWithin(s, TASKS, tasks, slots, m, tree);
      ActingKeeps(s, m, tree);
      ActingMoves(s, m, []);
      hide Acting, Within, Inv, Iterate, Transition, Raised;
      var a := Acting(s, m).value;
      BoundedFindsSlots(s, a.0, tree, a.1, tasks, slots);
    }
  }

  lemma FirstFrames(s: Setting, l: Launch, pool: nat -> nat, frames: nat, own: nat -> nat, depth: nat)
    requires Admits(s, l)
    requires Table(s.image, POOL, pool, frames) && ForkTable(s.image, POOL, pool, frames)
    requires Table(s.image, POOL, own, depth) && BranchTable(s.image, own, depth)
    requires pool(s.image.entry) <= frames <= l.capacity && own(s.image.entry) <= depth <= l.limits.framesPerTask
    ensures FramesBounded(s, First(s, l), Solo(0), pool, frames, own, depth)
  {
    FirstInv(s, l);
    IdleCost(s.image, POOL, own, l.limits.bindingsPerTask);
  }

  /** A run whose pool and stacks meet tables of frame needs never runs out of frames, in
      a transition or in a response. */
  lemma FramesNeverRunOut(
    s: Setting, l: Launch, states: seq<Machine>, moves: seq<Move>, k: nat,
    pool: nat -> nat, frames: nat, own: nat -> nat, depth: nat)
    requires Launched(s, l, states, moves) && k < |moves| && AppendsNothing(moves)
    requires Table(s.image, POOL, pool, frames) && ForkTable(s.image, POOL, pool, frames)
    requires Table(s.image, POOL, own, depth) && BranchTable(s.image, own, depth)
    requires pool(s.image.entry) <= frames <= l.capacity && own(s.image.entry) <= depth <= l.limits.framesPerTask
    ensures var a := Acting(s, states[k]); a.Some? ==> Raised(s, a.value.0, a.value.1) != Some(Frames)
    ensures moves[k].Respond? ==>
      Deliver(s, states[k], moves[k].task, moves[k].ticket, moves[k].event).refusal != Some(Frames)
  {
    FirstFrames(s, l, pool, frames, own, depth);
    var tree := RunFindsFrames(s, states, moves, k, Solo(0), pool, frames, own, depth);
    var m := states[k];
    if moves[k].Respond? {
      BoundedNeverRefuses(s, m, tree, moves[k].task, moves[k].ticket, moves[k].event, pool, frames, own, depth);
    }
    if Acting(s, m).Some? {
      ActingFrames(s, m, tree, pool, frames, own, depth);
      var a := Acting(s, m).value;
      BoundedFindsFrames(s, a.0, tree, a.1, pool, frames, own, depth);
    }
  }

  lemma ActingFrames(s: Setting, m: Machine, tree: Tree, pool: nat -> nat, frames: nat, own: nat -> nat, depth: nat)
    requires FramesBounded(s, m, tree, pool, frames, own, depth) && Acting(s, m).Some?
    ensures var a := Acting(s, m).value; FramesBounded(s, a.0, tree, pool, frames, own, depth) && a.1 in Ids(tree)
  {
    WithinInv(s, POOL, pool, frames, m, tree);
    ActingMoves(s, m, []);
    ActingKeeps(s, m, tree);
    PassStates(s, m, []);
    PreparedWithin(s, POOL, pool, frames, m, tree);
    hide Acting, Within, Shallow, Iterate, Transition;
    PreparedShallow(s, own, depth, m, Acting(s, m).value.0);
  }
}
