/** How the arrays of an execution hold a machine: task slots, one shared frame pool and one
    flat binding matrix, and what each kind of write does to the machine they hold. */
module Placement {
  import opened Program
  import opened Machine
  import opened Forest
  import opened Runs
  import opened Arena

  /** A task slot: its stack is only a handle into the shared pool. */
  datatype Slot = Slot(
    state: State, pc: nat, input: Option<V>, stack: Stack, context: nat, parent: Option<nat>, cleaning: nat,
    cancelled: bool)

  function Compact(t: Task, stack: Stack): Slot {
    Slot(t.state, t.pc, t.input, stack, t.context, t.parent, t.cleaning, t.cancelled)
  }

  /** `t` with everything but its stack and bindings taken from the slot. */
  function Lifted(slot: Slot, t: Task): Task {
    Task(slot.state, slot.pc, slot.input, t.stack, slot.context, slot.parent, slot.cleaning, slot.cancelled, t.env)
  }

  const DEFAULT: Slot := Slot(Free, 0, None, Stack(NONE, 0), 0, None, 0, false)

  // ----- what the arrays hold -----

  ghost predicate SlotsHold(slots: seq<Slot>, paths: seq<seq<nat>>, tasks: seq<Task>) {
    && |slots| == |tasks| && |paths| == |tasks|
    && forall i :: 0 <= i < |slots| ==> slots[i] == Compact(tasks[i], Head(paths[i]))
  }

  ghost predicate StacksHold(stacks: seq<seq<FrameKind>>, tasks: seq<Task>) {
    |stacks| == |tasks| && forall i :: 0 <= i < |stacks| ==> stacks[i] == tasks[i].stack
  }

  /** The cell of binding `j` of task `i`. */
  function Cell(i: nat, j: nat, width: nat): nat { i * width + j }

  ghost predicate RowHolds(cells: seq<Option<V>>, width: nat, i: nat, env: seq<Option<V>>) {
    && |env| == width
    && forall j :: 0 <= j < width ==> Cell(i, j, width) < |cells| && cells[Cell(i, j, width)] == env[j]
  }

  ghost predicate RowsHold(cells: seq<Option<V>>, width: nat, tasks: seq<Task>) {
    forall i :: 0 <= i < |tasks| ==> RowHolds(cells, width, i, tasks[i].env)
  }

  lemma CellsApart(i: nat, j: nat, k: nat, l: nat, width: nat)
    requires j < width && l < width && (i != k || j != l)
    ensures Cell(i, j, width) != Cell(k, l, width)
  {
    if i < k {
      assert k * width >= (i + 1) * width == i * width + width;
    } else if k < i {
      assert i * width >= (k + 1) * width == k * width + width;
    }
  }

  lemma CellIn(i: nat, j: nat, n: nat, width: nat, length: nat)
    requires i < n && j < width && n * width <= length
    ensures Cell(i, j, width) < length
  {
    assert n * width >= (i + 1) * width == i * width + width;
  }

  /** Writing one cell changes one binding of one task. */
  lemma RowSet(cells: seq<Option<V>>, width: nat, tasks: seq<Task>, i: nat, j: nat, x: Option<V>)
    requires RowsHold(cells, width, tasks) && i < |tasks| && j < width
    ensures |tasks[i].env| == width && Cell(i, j, width) < |cells|
    ensures RowsHold(cells[Cell(i, j, width) := x], width, tasks[i := tasks[i].(env := tasks[i].env[j := x])])
  {
    assert RowHolds(cells, width, i, tasks[i].env);
    hide Cell;
    var after := tasks[i := tasks[i].(env := tasks[i].env[j := x])];
    forall k | 0 <= k < |after| ensures RowHolds(cells[Cell(i, j, width) := x], width, k, after[k].env) {
      assert RowHolds(cells, width, k, tasks[k].env);
      forall l | 0 <= l < width && (k != i || l != j) ensures Cell(i, j, width) != Cell(k, l, width) {
        CellsApart(i, j, k, l, width);
      }
    }
  }

  /** Slots, stacks and bindings together hold the tasks. */
  ghost predicate Holds(
    slots: seq<Slot>, paths: seq<seq<nat>>, stacks: seq<seq<FrameKind>>, cells: seq<Option<V>>, width: nat,
    tasks: seq<Task>)
  {
    SlotsHold(slots, paths, tasks) && StacksHold(stacks, tasks) && RowsHold(cells, width, tasks)
  }

  lemma HoldsAt(
    slots: seq<Slot>, paths: seq<seq<nat>>, stacks: seq<seq<FrameKind>>, cells: seq<Option<V>>, width: nat,
    tasks: seq<Task>)
    requires Holds(slots, paths, stacks, cells, width, tasks)
    ensures |slots| == |paths| == |stacks| == |tasks|
    ensures forall i :: 0 <= i < |tasks| ==>
      && slots[i] == Compact(tasks[i], Head(paths[i])) && stacks[i] == tasks[i].stack && |tasks[i].env| == width
  {
    forall i | 0 <= i < |tasks| ensures |tasks[i].env| == width {
      assert RowHolds(cells, width, i, tasks[i].env);
    }
  }

  lemma WriteHolds(
    slots: seq<Slot>, paths: seq<seq<nat>>, stacks: seq<seq<FrameKind>>, cells: seq<Option<V>>, width: nat,
    tasks: seq<Task>,
    i: nat, slot: Slot)
    requires Holds(slots, paths, stacks, cells, width, tasks) && i < |tasks| && slot.stack == slots[i].stack
    ensures Holds(slots[i := slot], paths, stacks, cells, width, tasks[i := Lifted(slot, tasks[i])])
  {
    hide RowHolds;
  }

  lemma RestackHolds(
    slots: seq<Slot>, paths: seq<seq<nat>>, stacks: seq<seq<FrameKind>>, cells: seq<Option<V>>, width: nat,
    tasks: seq<Task>,
    i: nat, path: seq<nat>, row: seq<FrameKind>)
    requires Holds(slots, paths, stacks, cells, width, tasks) && i < |tasks|
    ensures Holds(slots[i := slots[i].(stack := Head(path))], paths[i := path], stacks[i := row], cells, width,
                  tasks[i := tasks[i].(stack := row)])
  {
    hide RowHolds;
  }

  lemma BindHolds(
    slots: seq<Slot>, paths: seq<seq<nat>>, stacks: seq<seq<FrameKind>>, cells: seq<Option<V>>, width: nat,
    tasks: seq<Task>,
    i: nat, j: nat, x: Option<V>)
    requires Holds(slots, paths, stacks, cells, width, tasks) && i < |tasks| && j < width
    ensures |tasks[i].env| == width && Cell(i, j, width) < |cells|
    ensures Holds(slots, paths, stacks, cells[Cell(i, j, width) := x], width,
                  tasks[i := tasks[i].(env := tasks[i].env[j := x])])
  {
    RowSet(cells, width, tasks, i, j, x);
  }

  lemma {:induction false} OccupiedTotal(tasks: seq<Task>, paths: seq<seq<nat>>)
    requires |tasks| == |paths| && forall i :: 0 <= i < |tasks| ==> |tasks[i].stack| == |paths[i]|
    ensures Occupied(tasks) == Total(paths)
  {
    if tasks != [] {
      OccupiedTotal(tasks[..|tasks| - 1], paths[..|paths| - 1]);
    }
  }

  /** A local transition of task `i` has been carried out in place, up to its fault. */
  ghost predicate Did(before: Machine, i: nat, l: Local, fault: Option<Fault>, after: Machine) {
    && i < |before.tasks| && (l.Next? || l.Trap?)
    && after == SetTask(before, i, l.task) && fault == if l.Trap? then Some(l.fault) else None
  }

  /** A transition has been carried out in place, up to the fault it raised. */
  ghost predicate Stepped(
    s: Setting, i: nat, turn: Turn, after: Machine, out: Option<Advance>, fault: Option<Fault>)
  {
    if fault.None? then turn == Turn(after, out)
    else out.None? && i < |after.tasks| && turn == Turn(Trapped(s, after, i, after.tasks[i], fault.value), None)
  }

  lemma DidSteps(s: Setting, before: Machine, i: nat, l: Local, fault: Option<Fault>, after: Machine)
    requires Did(before, i, l, fault, after)
    ensures Stepped(s, i, Settle(s, before, i, l), after, None, fault)
  {
    if l.Trap? {
      SetTwice(before, i, l.task, Return(l.task, FaultResult(s.h, l.task, l.fault)));
    }
  }

  /** A transition does not look at the old contents of its own slot. */
  lemma SettleSet(s: Setting, m: Machine, i: nat, u: Task, l: Local)
    requires i < |m.tasks| && (l.Spawn? ==> !m.tasks[i].state.Free? && !u.state.Free?)
    ensures Settle(s, SetTask(m, i, u), i, l) == Settle(s, m, i, l)
  {
    hide FaultResult;
    SetTwice(m, i, u, l.task);
    if l.Trap? {
      SetTwice(m, i, u, Return(l.task, FaultResult(s.h, l.task, l.fault)));
    } else if l.Spawn? {
      SpawnSet(s, m, i, u, l.task, l.left, l.right, l.join, l.shared);
    }
  }

  lemma SpawnSet(s: Setting, m: Machine, i: nat, u: Task, t: Task, left: nat, right: nat, join: Join, input: V)
    requires i < |m.tasks| && !m.tasks[i].state.Free? && !u.state.Free?
    ensures SpawnTasks(s, SetTask(m, i, u), i, t, left, right, join, input) ==
      SpawnTasks(s, m, i, t, left, right, join, input)
  {
    var n := SetTask(m, i, u);
    FreeSet(m.tasks, i, u, 0);
    SetTwice(m, i, u, Return(t, FaultResult(s.h, t, Tasks)));
    var a := FirstFree(m.tasks, 0);
    if a.Some? {
      FreeSet(m.tasks, i, u, a.value + 1);
      var b := FirstFree(m.tasks, a.value + 1);
      if b.Some? {
        assert Forked(n, i, t, a.value, b.value, left, right, join, input).tasks
            == Forked(m, i, t, a.value, b.value, left, right, join, input).tasks;
      }
    }
  }

  lemma {:induction false} FreeSet(tasks: seq<Task>, i: nat, u: Task, from: nat)
    requires i < |tasks| && !tasks[i].state.Free? && !u.state.Free?
    ensures FirstFree(tasks[i := u], from) == FirstFree(tasks, from)
    decreases |tasks| - from
  {
    if from < |tasks| {
      FreeSet(tasks, i, u, from + 1);
    }
  }

  lemma SetTwice(m: Machine, i: nat, t: Task, u: Task)
    requires i < |m.tasks|
    ensures SetTask(SetTask(m, i, t), i, u) == SetTask(m, i, u)
  {
    assert m.tasks[i := t][i := u] == m.tasks[i := u];
  }

  lemma RoomSet(m: Machine, i: nat, t: Task)
    requires i < |m.tasks|
    ensures Room(SetTask(m, i, t)) == Room(m) + |m.tasks[i].stack| - |t.stack|
  {
    OccupiedSet(m.tasks, i, t);
  }

  /** The first `j` bindings of one row followed by the rest of another. */
  function Patched(row: seq<Option<V>>, rest: seq<Option<V>>, j: nat): seq<Option<V>>
    requires j <= |row| && j <= |rest|
  {
    row[..j] + rest[j..]
  }

  lemma PatchStep(row: seq<Option<V>>, rest: seq<Option<V>>, j: nat)
    requires j < |row| == |rest|
    ensures |Patched(row, rest, j)| == |row| && Patched(row, rest, j)[j := row[j]] == Patched(row, rest, j + 1)
  {
  }

  lemma PatchEnds(row: seq<Option<V>>, rest: seq<Option<V>>)
    requires |row| == |rest|
    ensures Patched(row, rest, 0) == rest && Patched(row, rest, |row|) == row
  {
  }

  lemma SetSame(m: Machine, i: nat)
    requires i < |m.tasks|
    ensures SetTask(m, i, m.tasks[i]) == m
  {
    assert m.tasks[i := m.tasks[i]] == m.tasks;
  }

  // ----- cancellation -----

  lemma MarkedStep(before: seq<Task>, root: nat, k: nat, after: seq<Task>)
    requires Marked(before, root, k, after) && k < |before|
    ensures var u := if Under(before, k, root, |before|) then after[k].(cancelled := true) else after[k];
      Marked(before, root, k + 1, after[k := u])
  {
    hide Under;
  }

  lemma MarkedParents(before: seq<Task>, root: nat, k: nat, after: seq<Task>)
    requires Marked(before, root, k, after)
    ensures |after| == |before| && forall j :: 0 <= j < |before| ==> after[j].parent == before[j].parent
  {
    hide Under;
  }

  lemma MarkedRoot(before: seq<Task>, root: nat)
    requires root < |before|
    ensures Marked(before, root, 0, before[root := before[root].(cancelled := true)])
  {
    hide Under;
  }

  lemma MarkedAll(before: seq<Task>, root: nat, after: seq<Task>)
    requires Marked(before, root, |before|, after)
    ensures after == CancelTree(before, root)
  {
    hide Under;
  }

  /** What cancelling a subtree leaves of the slots before `done`, and of its root. */
  ghost predicate Marked(before: seq<Task>, root: nat, done: nat, after: seq<Task>) {
    && |after| == |before|
    && forall k: nat :: k < |before| ==>
         after[k] == if k == root || (k < done && Under(before, k, root, |before|))
                     then before[k].(cancelled := true) else before[k]
  }

  lemma MergedIs(h: Values, tasks: seq<Task>, j: JoinState)
    requires BothDone(tasks, j)
    ensures var x, y := Raced(tasks, j)[j.left], Raced(tasks, j)[j.right];
      && x.state.Done? && y.state.Done?
      && Merged(h, tasks, j) == JoinResult(h, j.join, x.state.outcome, y.state.outcome, x.cancelled)
  {
    RacedFlags(tasks, j);
  }

  lemma JoinChildren(s: Setting, m: Machine, tree: Tree, i: nat)
    requires Inv(s, m, tree) && i in Ids(tree) && i < |m.tasks| && m.tasks[i].state.Joining?
    ensures var j := m.tasks[i].state.pair;
      && j.left < |m.tasks| && j.right < |m.tasks| && i != j.left && i != j.right && j.left != j.right
      && (m.tasks[j.left].state.Done? ==> m.tasks[j.left].stack == [])
      && (m.tasks[j.right].state.Done? ==> m.tasks[j.right].stack == [])
  {
    ChildrenIn(m.tasks, tree, i);
    var j := m.tasks[i].state.pair;
    ShapeAt(m.tasks, tree, None, 0, j.left);
    ShapeAt(m.tasks, tree, None, 0, j.right);
  }

  lemma JoinerLive(tasks: seq<Task>, tree: Tree, i: nat)
    requires Covers(tasks, tree) && i < |tasks| && tasks[i].state.Joining?
    ensures i in Ids(tree)
  {
  }

  // ----- the frames in slot order -----

  lemma {:induction false} KindsTally(cells: seq<Option<Frame>>, x: FrameKind)
    ensures multiset(Kinds(cells))[x] == Tally(cells, x)
  {
    if cells != [] {
      KindsTally(cells[..|cells| - 1], x);
    }
  }

  lemma {:induction false} StackCount(row: seq<FrameKind>, x: FrameKind)
    ensures multiset(row)[x] == Count(row, x)
  {
    if row != [] {
      StackCount(row[..|row| - 1], x);
      assert row == row[..|row| - 1] + [row[|row| - 1]];
    }
  }

  lemma {:induction false} FramesCounts(tasks: seq<Task>, stacks: seq<seq<FrameKind>>, x: FrameKind)
    requires StacksHold(stacks, tasks)
    ensures AllFrames(tasks)[x] == Counts(stacks, x)
  {
    if tasks != [] {
      FramesCounts(tasks[..|tasks| - 1], stacks[..|stacks| - 1], x);
      StackCount(stacks[|stacks| - 1], x);
    }
  }

  lemma NoKinds(h: Values, base: V)
    ensures FramesControl(h, Kinds([]), base) == base
  {
  }

  lemma KindsStep(h: Values, cells: seq<Option<Frame>>, base: V)
    requires cells != []
    ensures var last, before := cells[|cells| - 1], FramesControl(h, Kinds(cells[..|cells| - 1]), base);
      FramesControl(h, Kinds(cells), base) == if last.Some? then FrameControl(h, last.value.kind, before) else before
  {
    var rest, live := Kinds(cells[..|cells| - 1]), Live(cells[|cells| - 1]);
    assert Kinds(cells) == rest + live;
    if live == [] {
      assert rest + live == rest;
    } else {
      assert (rest + live)[..|rest|] == rest;
    }
  }

  /** The pool in slot order lists exactly the frames on the stacks. */
  lemma SlotOrderIsLayout(cells: seq<Option<Frame>>, stacks: seq<seq<FrameKind>>, m: Machine)
    requires Accounts(cells, stacks) && StacksHold(stacks, m.tasks)
    ensures IsLayout(m, Kinds(cells))
  {
    forall x ensures multiset(Kinds(cells))[x] == AllFrames(m.tasks)[x] {
      KindsTally(cells, x);
      FramesCounts(m.tasks, stacks, x);
      assert Tally(cells, x) == Counts(stacks, x);
    }
  }

  // ----- where the frames go -----

  function StacksOf(tasks: seq<Task>): seq<seq<FrameKind>> {
    seq(|tasks|, i requires 0 <= i < |tasks| => tasks[i].stack)
  }

  lemma StacksAre(stacks: seq<seq<FrameKind>>, tasks: seq<Task>)
    requires StacksHold(stacks, tasks)
    ensures stacks == StacksOf(tasks)
  {
  }

  /** The frames of the machine in the order of the slots that the plan gives them. */
  function Order(p: Plan, m: Machine): seq<FrameKind> { Listed(p.place, StacksOf(m.tasks)) }

  /** What became of the plan when the scheduler looked for a task to act on, and `after` is the result. */
  function PickPlan(s: Setting, m: Machine, p: Plan, after: Machine): Plan
    requires |m.tasks| > 0
  {
    var pick := Scan(m.tasks, m.cursor, 0);
    if pick.None? || m.tasks[pick.value].state.Waiting? || pick.value >= |after.tasks| then p
    else if m.aborting && m.cleanupSteps >= m.limits.cleanupSteps then p
    else Replanned(p, pick.value, Convert(s.h, m.tasks[pick.value]).state.Returning?, |after.tasks[pick.value].stack|)
  }

  /** What a host call makes of the plan: the task it acts on pops at most its top frame and then
      pushes; a response only pushes; and larger storage only adds owners. */
  function PlanAfter(s: Setting, m: Machine, move: Move, p: Plan): Plan
    requires |m.tasks| > 0
  {
    var after := Apply(s, m, move).m;
    match move
    case Tick(_) => if Terminal(m.tasks[0].state) then p else PickPlan(s, Quoted(m), p, after)
    case Respond(i, _, _) => if i < |after.tasks| then Lengthened(p, i, |after.tasks[i].stack|) else p
    case Abort => p
    case Resize(tasks, _, _, _) => if |p.paths| <= tasks then Padded(p, tasks) else p
  }

  lemma {:induction false} LengthenedOwners(p: Plan, o: nat, n: nat)
    ensures |Lengthened(p, o, n).paths| == |p.paths|
    decreases if o < |p.paths| then n - |p.paths[o]| else 0
  {
    if o < |p.paths| && |p.paths[o]| < n {
      LengthenedOwners(Taken(p, o), o, n);
    }
  }

  lemma ShortenedOwners(p: Plan, o: nat)
    ensures |Shortened(p, o).paths| == |p.paths|
  {
  }

  lemma PlanOwners(s: Setting, m: Machine, move: Move, p: Plan)
    requires |m.tasks| > 0 && !move.Resize?
    ensures |PlanAfter(s, m, move, p).paths| == |p.paths|
  {
    hide Apply, Lengthened, Shortened, Scan, Convert;
    var after := Apply(s, m, move).m;
    match move
    case Tick(_) =>
      var pick := Scan(Quoted(m).tasks, Quoted(m).cursor, 0);
      if pick.Some? && pick.value < |after.tasks| {
        ShortenedOwners(p, pick.value);
        LengthenedOwners(p, pick.value, |after.tasks[pick.value].stack|);
        LengthenedOwners(Shortened(p, pick.value), pick.value, |after.tasks[pick.value].stack|);
      }
    case Respond(i, _, _) =>
      if i < |after.tasks| {
        LengthenedOwners(p, i, |after.tasks[i].stack|);
      }
    case Abort =>
  }

  /** The plans of a run in place, where every pass sees the frames in the order of its own pool. */
  ghost predicate Laid(s: Setting, states: seq<Machine>, moves: seq<Move>, plans: seq<Plan>) {
    && |states| == |plans| == |moves| + 1
    && (forall k :: 0 <= k < |states| ==> 0 < |states[k].tasks| == |plans[k].paths|)
    && (forall k :: 0 <= k < |moves| ==>
          (moves[k].Tick? ==> moves[k].layout == Order(plans[k], states[k]))
            && plans[k + 1] == PlanAfter(s, states[k], moves[k], plans[k]))
  }

  lemma LaidMore(s: Setting, states: seq<Machine>, moves: seq<Move>, plans: seq<Plan>, move: Move, next: Machine,
      plan: Plan)
    requires Laid(s, states, moves, plans)
    requires move.Tick? ==> move.layout == Order(plans[|moves|], states[|moves|])
    requires plan == PlanAfter(s, states[|moves|], move, plans[|moves|]) && 0 < |next.tasks| == |plan.paths|
    ensures Laid(s, states + [next], moves + [move], plans + [plan])
  {
    hide Order, PlanAfter;
    var path, calls, laid := states + [next], moves + [move], plans + [plan];
    forall k | 0 <= k < |calls|
      ensures (calls[k].Tick? ==> calls[k].layout == Order(laid[k], path[k]))
        && laid[k + 1] == PlanAfter(s, path[k], calls[k], laid[k])
    {
      if k < |moves| {
        assert path[k] == states[k] && calls[k] == moves[k] && laid[k] == plans[k] && laid[k + 1] == plans[k + 1];
      }
    }
  }

  // ----- what a call to the execution is -----

  /** `advance` with `fuel`: passes of the scheduler until one has something to report. */
  ghost predicate Advances(s: Setting, states: seq<Machine>, moves: seq<Move>, fuel: nat, out: Advance) {
    && IsRun(s, states, moves) && |moves| <= fuel && (forall k :: 0 <= k < |moves| ==> moves[k].Tick?)
    && (forall k :: 0 <= k < |moves| && (k < |moves| - 1 || out.Yielded?) ==> Apply(s, states[k], moves[k]).out.None?)
    && if out.Yielded? then |moves| == fuel
       else |moves| > 0 && Apply(s, states[|moves| - 1], moves[|moves| - 1]).out == Some(out)
  }

  lemma AdvancesMore(s: Setting, states: seq<Machine>, moves: seq<Move>, move: Move, next: Machine, fuel: nat,
      out: Option<Advance>)
    requires Advances(s, states, moves, |moves|, Yielded) && |moves| < fuel
    requires move.Tick? && Legal(states[|moves|], move) && Apply(s, states[|moves|], move) == Turn(next, out)
      && |next.tasks| > 0
    requires out.Some? ==> !out.value.Yielded?
    ensures out.None? ==> Advances(s, states + [next], moves + [move], |moves| + 1, Yielded)
    ensures out.Some? ==> Advances(s, states + [next], moves + [move], fuel, out.value)
  {
    hide Apply, Legal;
    var more, path := moves + [move], states + [next];
    forall k | 0 <= k < |more| ensures Legal(path[k], more[k]) && path[k + 1] == Apply(s, path[k], more[k]).m {
      if k < |moves| {
        assert path[k] == states[k] && more[k] == moves[k] && path[k + 1] == states[k + 1];
      }
    }
  }

  /** Two series of passes with the same fuel whose passes report alike stop together. */
  lemma AdvancesAlike(
    s: Setting, fuel: nat, states: seq<Machine>, moves: seq<Move>, out: Advance, alt: seq<Machine>, calls: seq<Move>,
    other: Advance)
    requires Advances(s, states, moves, fuel, out) && Advances(s, alt, calls, fuel, other)
    requires forall k :: 0 <= k < |moves| && k < |calls| ==>
      Apply(s, alt[k], calls[k]).out == Apply(s, states[k], moves[k]).out
    ensures |calls| == |moves| && other == out
  {
    hide Apply, Legal;
  }

  lemma NeverYields(s: Setting, m: Machine, layout: seq<FrameKind>)
    requires |m.tasks| > 0
    ensures var out := Iterate(s, m, layout).out; out.Some? ==> !out.value.Yielded?
  {
    hide Unwind, Begin, Conclude, Scan, Cancel, TerminalFault, Merged;
  }

  // ----- moving the storage -----

  /** What survives while the host moves the storage. */
  datatype Suspended = Suspended(
    taskCount: nat, frameCount: nat, imageId: nat, limits: Limits, nextUnused: nat, freeHead: nat, freeCount: nat,
    steps: nat, cleanupSteps: nat, ticket: nat, cursor: nat, aborting: bool)

  /** The contents of the three arrays, and what they mean. */
  datatype Snapshot = Snapshot(
    slots: seq<Slot>, cells: seq<Option<Frame>>, rows: seq<Option<V>>,
    plan: Plan, stacks: seq<seq<FrameKind>>, model: Machine, tree: Tree, home: Image)

  /** `x` is what a suspended execution left in its arrays. */
  ghost predicate Left(h: Values, meta: Suspended, x: Snapshot) {
    && Sound(x.cells, x.plan, x.stacks)
    && Holds(x.slots, x.plan.paths, x.stacks, x.rows, meta.limits.bindingsPerTask, x.model.tasks)
    && meta == Suspended(|x.slots|, |x.cells|, x.home.id, meta.limits, |x.plan.place|, Link(x.plan.free, |x.plan.free|),
                         |x.plan.free|, meta.steps, meta.cleanupSteps, meta.ticket, meta.cursor, meta.aborting)
    && x.model == Machine(x.model.tasks, |x.cells|, meta.limits, meta.steps, meta.cleanupSteps, meta.ticket,
                          meta.cursor, meta.aborting, x.home.id)
    && Inv(Setting(x.home, h), x.model, x.tree)
  }

  /** The host kept every slot, padded the arrays with empty ones, and moved each binding row to
      the new stride. */
  ghost predicate Moved(x: Snapshot, width: nat, slots: seq<Slot>, cells: seq<Option<Frame>>, wider: nat,
      rows: seq<Option<V>>) {
    && |x.slots| <= |slots| && |x.cells| <= |cells|
    && slots[..|x.slots|] == x.slots && (forall k :: |x.slots| <= k < |slots| ==> slots[k] == DEFAULT)
    && cells[..|x.cells|] == x.cells && (forall k :: |x.cells| <= k < |cells| ==> cells[k].None?)
    && Restrided(x, width, |slots|, wider, rows)
  }

  ghost predicate Restrided(x: Snapshot, width: nat, slots: nat, wider: nat, rows: seq<Option<V>>) {
    forall i, j :: 0 <= i < slots && 0 <= j < wider ==>
      && Cell(i, j, wider) < |rows|
      && if i < |x.slots| && j < width
         then Cell(i, j, width) < |x.rows| && rows[Cell(i, j, wider)] == x.rows[Cell(i, j, width)]
         else rows[Cell(i, j, wider)].None?
  }

  /** The plan of the padded pool: the new tasks own nothing. */
  function Padded(p: Plan, owners: nat): Plan
    requires |p.paths| <= owners
  {
    p.(paths := p.paths + seq(owners - |p.paths|, _ => []))
  }

  function PaddedStacks(stacks: seq<seq<FrameKind>>, owners: nat): seq<seq<FrameKind>>
    requires |stacks| <= owners
  {
    stacks + seq(owners - |stacks|, _ => [])
  }

  lemma {:induction false} LengthenedPadded(p: Plan, owners: nat, o: nat, n: nat)
    requires o < |p.paths| <= owners
    ensures |Lengthened(p, o, n).paths| == |p.paths|
    ensures Lengthened(Padded(p, owners), o, n) == Padded(Lengthened(p, o, n), owners)
    decreases n - |p.paths[o]|
  {
    if |p.paths[o]| < n {
      assert Taken(Padded(p, owners), o).paths == Padded(Taken(p, o), owners).paths;
      LengthenedPadded(Taken(p, o), owners, o, n);
    }
  }

  /** New owners without frames do not change which slots the others use. */
  lemma ReplannedPadded(p: Plan, owners: nat, o: nat, popped: bool, n: nat)
    requires o < |p.paths| <= owners
    ensures |Replanned(p, o, popped, n).paths| == |p.paths|
    ensures Replanned(Padded(p, owners), o, popped, n) == Padded(Replanned(p, o, popped, n), owners)
  {
    assert Shortened(Padded(p, owners), o) == Padded(Shortened(p, o), owners) by {
      assert Shortened(Padded(p, owners), o).paths == Padded(Shortened(p, o), owners).paths;
    }
    hide Lengthened, Shortened;
    LengthenedPadded(p, owners, o, n);
    if popped {
      ShortenedOwners(p, o);
      LengthenedPadded(Shortened(p, o), owners, o, n);
    }
  }

  lemma {:induction false} ListedPadded(place: seq<Place>, stacks: seq<seq<FrameKind>>, more: seq<seq<FrameKind>>)
    requires |stacks| <= |more| && forall o :: 0 <= o < |more| ==> more[o] == if o < |stacks| then stacks[o] else []
    ensures Listed(place, more) == Listed(place, stacks)
  {
    if place != [] {
      ListedPadded(place[..|place| - 1], stacks, more);
    }
  }

  lemma LeftTasks(h: Values, meta: Suspended, x: Snapshot)
    requires Left(h, meta, x)
    ensures 0 < |x.slots| == |x.model.tasks| == |x.plan.paths| == |x.stacks|
  {
  }

  lemma {:induction false} TotalPadded<T>(rows: seq<seq<T>>, n: nat)
    ensures Total(rows + seq(n, _ => [])) == Total(rows)
  {
    var more := rows + seq(n, _ => []);
    if n == 0 {
      assert more == rows;
    } else {
      TotalPadded(rows, n - 1);
      assert more[..|more| - 1] == rows + seq(n - 1, _ => []);
    }
  }

  lemma {:induction false} CountsPadded(rows: seq<seq<FrameKind>>, n: nat, x: FrameKind)
    ensures Counts(rows + seq(n, _ => []), x) == Counts(rows, x)
  {
    var more := rows + seq(n, _ => []);
    if n == 0 {
      assert more == rows;
    } else {
      CountsPadded(rows, n - 1, x);
      assert more[..|more| - 1] == rows + seq(n - 1, _ => []);
    }
  }

  lemma {:induction false} TallyPadded(cells: seq<Option<Frame>>, more: seq<Option<Frame>>, x: FrameKind)
    requires |cells| <= |more| && more[..|cells|] == cells && forall k :: |cells| <= k < |more| ==> more[k].None?
    ensures Tally(more, x) == Tally(cells, x)
    decreases |more|
  {
    if |more| == |cells| {
      assert more == cells;
    } else {
      assert more[..|more| - 1][..|cells|] == cells;
      TallyPadded(cells, more[..|more| - 1], x);
    }
  }

  lemma ChainPadded(cells: seq<Option<Frame>>, more: seq<Option<Frame>>, path: seq<nat>, kinds: seq<FrameKind>)
    requires Chain(cells, path, kinds) && |cells| <= |more| && more[..|cells|] == cells
    ensures Chain(more, path, kinds)
  {
    forall d | 0 <= d < |path| ensures path[d] < |more| && more[path[d]] == Some(Frame(kinds[d], Link(path, d))) {
      assert more[path[d]] == more[..|cells|][path[d]];
    }
  }

  lemma PaddedPartition(p: Plan, owners: nat)
    requires Partition(p) && |p.paths| <= owners
    ensures Partition(Padded(p, owners))
  {
    TotalPadded(p.paths, owners - |p.paths|);
    var q := Padded(p, owners);
    forall o: nat, d: nat ensures PathAt(q, o, d) {
      assert PathAt(p, o, d);
    }
    forall k: nat ensures FreeAt(q, k) {
      assert FreeAt(p, k);
    }
    forall i: nat ensures PlaceAt(q, i) {
      assert PlaceAt(p, i);
    }
  }

  lemma PaddedSpells(cells: seq<Option<Frame>>, more: seq<Option<Frame>>, p: Plan, stacks: seq<seq<FrameKind>>,
      owners: nat)
    requires Spells(cells, p, stacks) && |cells| <= |more| && more[..|cells|] == cells && |p.paths| <= owners
    requires forall k :: |cells| <= k < |more| ==> more[k].None?
    ensures Spells(more, Padded(p, owners), PaddedStacks(stacks, owners))
  {
    var q, rows := Padded(p, owners), PaddedStacks(stacks, owners);
    forall o | 0 <= o < owners ensures Chain(more, q.paths[o], rows[o]) {
      if o < |p.paths| {
        ChainPadded(cells, more, p.paths[o], stacks[o]);
      }
    }
    ChainPadded(cells, more, p.free, Vacancies(|p.free|));
    forall i | |p.place| <= i < |more| ensures more[i].None? {
      if i < |cells| {
        assert more[i] == more[..|cells|][i];
      }
    }
  }

  lemma PaddedAccounts(cells: seq<Option<Frame>>, more: seq<Option<Frame>>, stacks: seq<seq<FrameKind>>, owners: nat)
    requires Accounts(cells, stacks) && |cells| <= |more| && more[..|cells|] == cells && |stacks| <= owners
    requires forall k :: |cells| <= k < |more| ==> more[k].None?
    ensures Accounts(more, PaddedStacks(stacks, owners))
  {
    forall x ensures Tally(more, x) == Counts(PaddedStacks(stacks, owners), x) {
      TallyPadded(cells, more, x);
      CountsPadded(stacks, owners - |stacks|, x);
      assert Tally(cells, x) == Counts(stacks, x);
    }
  }

  lemma GrownSound(
    h: Values, before: Suspended, x: Snapshot, wider: nat, slots: seq<Slot>, cells: seq<Option<Frame>>,
    rows: seq<Option<V>>)
    requires Left(h, before, x) && Moved(x, before.limits.bindingsPerTask, slots, cells, wider, rows)
      && |cells| <= U32_MAX
    ensures |x.plan.paths| <= |slots| && |x.stacks| <= |slots|
    ensures Sound(cells, Padded(x.plan, |slots|), PaddedStacks(x.stacks, |slots|))
  {
    LeftTasks(h, before, x);
    hide Partition, Spells, Accounts, Inv, Holds;
    PaddedPartition(x.plan, |slots|);
    PaddedSpells(x.cells, cells, x.plan, x.stacks, |slots|);
    PaddedAccounts(x.cells, cells, x.stacks, |slots|);
  }

  lemma GrownSlots(x: Snapshot, width: nat, m: Machine, wider: nat, slots: seq<Slot>, capacity: nat)
    requires |x.slots| <= |slots| && slots[..|x.slots|] == x.slots
      && (forall k :: |x.slots| <= k < |slots| ==> slots[k] == DEFAULT)
    requires SlotsHold(x.slots, x.plan.paths, x.model.tasks) && StacksHold(x.stacks, x.model.tasks)
    requires m.tasks == Grow(x.model, |slots|, capacity, m.limits.framesPerTask, wider).tasks
    ensures SlotsHold(slots, Padded(x.plan, |slots|).paths, m.tasks)
      && StacksHold(PaddedStacks(x.stacks, |slots|), m.tasks)
  {
    forall i | 0 <= i < |slots| ensures slots[i] == Compact(m.tasks[i], Head(Padded(x.plan, |slots|).paths[i])) {
      GrownTask(x.model, |slots|, capacity, m.limits.framesPerTask, wider, i);
      if i < |x.slots| {
        assert slots[i] == slots[..|x.slots|][i];
      }
    }
    forall i | 0 <= i < |slots| ensures PaddedStacks(x.stacks, |slots|)[i] == m.tasks[i].stack {
      GrownTask(x.model, |slots|, capacity, m.limits.framesPerTask, wider, i);
    }
  }

  lemma GrownRows(x: Snapshot, width: nat, m: Machine, wider: nat, slots: nat, rows: seq<Option<V>>, capacity: nat)
    requires |x.slots| == |x.model.tasks| <= slots && width <= wider && RowsHold(x.rows, width, x.model.tasks)
    requires m.tasks == Grow(x.model, slots, capacity, m.limits.framesPerTask, wider).tasks
    requires Restrided(x, width, slots, wider, rows)
    ensures RowsHold(rows, wider, m.tasks)
  {
    hide Cell;
    forall i | 0 <= i < slots ensures RowHolds(rows, wider, i, m.tasks[i].env) {
      GrownTask(x.model, slots, capacity, m.limits.framesPerTask, wider, i);
      if i < |x.slots| {
        assert RowHolds(x.rows, width, i, x.model.tasks[i].env);
        assert m.tasks[i].env == x.model.tasks[i].env + seq(wider - width, _ => None);
      }
    }
  }

  lemma GrownHolds(
    h: Values, before: Suspended, x: Snapshot, m: Machine, wider: nat, slots: seq<Slot>, cells: seq<Option<Frame>>,
    rows: seq<Option<V>>)
    requires Left(h, before, x) && Moved(x, before.limits.bindingsPerTask, slots, cells, wider, rows)
    requires before.limits.bindingsPerTask <= wider && |x.model.tasks| <= |slots|
    requires m.tasks == Grow(x.model, |slots|, |cells|, m.limits.framesPerTask, wider).tasks
    ensures |x.plan.paths| <= |slots| && |x.stacks| <= |slots|
    ensures Holds(slots, Padded(x.plan, |slots|).paths, PaddedStacks(x.stacks, |slots|), rows, wider, m.tasks)
  {
    LeftTasks(h, before, x);
    hide Sound, Inv, SlotsHold, StacksHold, RowsHold, Restrided, Grow;
    GrownSlots(x, before.limits.bindingsPerTask, m, wider, slots, |cells|);
    GrownRows(x, before.limits.bindingsPerTask, m, wider, |slots|, rows, |cells|);
  }

  lemma Strides(cells: nat, rows: nat, width: nat)
    requires rows > 0
    ensures cells / rows >= width <==> rows * width <= cells
  {
    var q := cells / rows;
    assert cells == rows * q + cells % rows && cells % rows < rows;
    if q >= width {
      assert rows * q >= rows * width;
    } else {
      assert rows * (q + 1) <= rows * width;
      assert rows * (q + 1) == rows * q + rows;
    }
  }

  lemma InitialHolds(
    image: Image, limits: Limits, input: V, context: nat, slots: seq<Slot>, paths: seq<seq<nat>>,
    stacks: seq<seq<FrameKind>>, cells: seq<Option<V>>, capacity: nat)
    requires |slots| > 0 && |slots| * limits.bindingsPerTask <= |cells|
    requires slots[0] == DEFAULT.(state := Ready, pc := image.entry, input := Some(input), context := context)
    requires forall j :: 1 <= j < |slots| ==> slots[j] == DEFAULT
    requires forall j :: 0 <= j < |cells| ==> cells[j].None?
    requires |paths| == |slots| && (forall o :: 0 <= o < |paths| ==> Head(paths[o]) == Stack(NONE, 0))
      && stacks == Bare(|slots|)
    ensures Holds(slots, paths, stacks, cells, limits.bindingsPerTask,
                  Initial(image, |slots|, capacity, limits, input, context).tasks)
  {
    var tasks, w := Initial(image, |slots|, capacity, limits, input, context).tasks, limits.bindingsPerTask;
    forall i | 0 <= i < |tasks| ensures RowHolds(cells, w, i, tasks[i].env) {
      forall j | 0 <= j < w ensures Cell(i, j, w) < |cells| {
        CellIn(i, j, |slots|, w, |cells|);
      }
    }
  }

  lemma InitialInv(s: Setting, tasks: nat, capacity: nat, limits: Limits, input: V, context: nat)
    requires Program.Valid(s.image) && 0 < tasks && s.image.bindings <= limits.bindingsPerTask
    ensures Inv(s, Initial(s.image, tasks, capacity, limits, input, context), Solo(0))
  {
    OccupiedPadded([], Initial(s.image, tasks, capacity, limits, input, context).tasks);
  }
}
