/** Moving an execution to larger storage is invisible until the smaller one would run out. */
module Growth {
  import opened Program
  import opened Machine
  import opened Stacks
  import opened Forest
  import opened Runs
  import opened Scheduling
  import opened Indices
  import A = Arena
  import P = Placement
  import S = Storage

  /** A transition of a task whose binding row is padded to `width`. */
  function WidenLocal(l: Local, width: nat): Local {
    match l
    case Next(t) => Next(Widen(t, width))
    case Await(t, port, asked) => Await(Widen(t, width), port, asked)
    case Trap(t, fault) => Trap(Widen(t, width), fault)
    case Spawn(t, left, right, join, shared) => Spawn(Widen(t, width), left, right, join, shared)
  }

  /** The transition asks for more frames than there are. */
  predicate Short(l: Local) { l.Trap? && l.fault.Frames? }

  /** A task whose slots are in a row of `narrow` cells. */
  predicate Narrow(s: Setting, narrow: nat, t: Task) {
    ProgramOk(s, narrow) && |t.env| == narrow && StackOk(s.image, narrow, t.stack)
  }

  // ----- one task -----

  lemma WidenConclude(s: Setting, t: Task, node: nat, r: Res, width: nat)
    ensures Conclude(s, Widen(t, width), node, r) == WidenLocal(Conclude(s, t, node, r), width)
  {
  }

  lemma WidenFault(h: Values, t: Task, fault: Fault, width: nat)
    ensures FaultResult(h, Widen(t, width), fault) == FaultResult(h, t, fault)
  {
  }

  lemma WidenEnter1(t: Task, f: FrameKind, pc: nat, input: V, max: nat, room: int, width: nat, more: nat, wide: int)
    requires max <= more && room <= wide && !Short(Enter1(t, f, pc, input, max, room))
    ensures Enter1(Widen(t, width), f, pc, input, more, wide) == WidenLocal(Enter1(t, f, pc, input, max, room), width)
  {
  }

  lemma WidenEnter2(
    t: Task, f: FrameKind, g: FrameKind, pc: nat, input: V, max: nat, room: int, width: nat, more: nat, wide: int)
    requires max <= more && room <= wide && !Short(Enter2(t, f, g, pc, input, max, room))
    ensures Enter2(Widen(t, width), f, g, pc, input, more, wide) ==
      WidenLocal(Enter2(t, f, g, pc, input, max, room), width)
  {
  }

  lemma WidenKind(
    s: Setting, t: Task, kind: NodeKind, input: V, max: nat, room: int, ticket: nat, width: nat, more: nat, wide: int)
    requires max <= more && room <= wide && |t.env| <= width && SlotsIn(Node(kind, None, 0), |t.env|)
    requires !Short(BeginKind(s, t, kind, input, max, room, ticket))
    ensures BeginKind(s, Widen(t, width), kind, input, more, wide, ticket)
         == WidenLocal(BeginKind(s, t, kind, input, max, room, ticket), width)
  {
    hide Conclude, Enter1, Enter2;
    var pc := t.pc;
    var opening := OpeningOf(kind, input);
    if opening.Some? {
      WidenEnter2(t, Finish(pc), opening.value.frame, opening.value.entry, input, max, room, width, more, wide);
    } else {
      match kind
      case Literal(c) => WidenConclude(s, t, pc, Ok(s.h.influence(c, input)), width);
      case Input => WidenConclude(s, t, pc, Ok(input), width);
      case Load(slot) =>
        if t.env[slot].Some? {
          WidenConclude(s, t, pc, Ok(s.h.influence(t.env[slot].value, input)), width);
        }
      case Fail(e) => WidenConclude(s, t, pc, Err(e), width);
      case Request(_) =>
      case Scope(_, _) =>
      case If(yes, no) =>
        match s.h.truth(input) {
          case Ok(b) => WidenEnter1(t, Finish(pc), if b then yes else no, input, max, room, width, more, wide);
          case Err(e) => WidenConclude(s, t, pc, Err(e), width);
        }
      case Call(entry) => WidenEnter1(t, Finish(pc), entry, input, max, room, width, more, wide);
      case Fork(_, _, _) =>
    }
  }

  lemma WidenBegin(s: Setting, t: Task, max: nat, room: int, ticket: nat, width: nat, more: nat, wide: int)
    requires max <= more && room <= wide && |t.env| <= width && Narrow(s, |t.env|, t) && s.image.Has(t.pc)
    requires !Short(Begin(s, t, max, room, ticket))
    ensures Begin(s, Widen(t, width), more, wide, ticket) == WidenLocal(Begin(s, t, max, room, ticket), width)
  {
    hide BeginKind;
    if t.input.Some? {
      TargetsIn(s, |t.env|, t.pc);
      assert Armed(s, Widen(t, width)) == Widen(Armed(s, t), width);
      WidenKind(s, Armed(s, t), s.image.nodes[t.pc].kind, t.input.value, max, room, ticket, width, more, wide);
    }
  }

  lemma WidenSet(env: seq<Option<V>>, slot: nat, x: Option<V>, pad: seq<Option<V>>)
    requires slot < |env|
    ensures (env + pad)[slot := x] == env[slot := x] + pad && (env + pad)[slot] == env[slot]
  {
  }

  lemma WidenPop(s: Setting, t: Task, frame: FrameKind, outcome: Res, max: nat, room: int, width: nat, more: nat,
      wide: int)
    requires max <= more && room <= wide && |t.env| <= width && FrameOk(s.image, |t.env|, frame)
    requires !Short(PopFrame(s, t, frame, outcome, max, room))
    ensures PopFrame(s, Widen(t, width), frame, outcome, more, wide) ==
      WidenLocal(PopFrame(s, t, frame, outcome, max, room), width)
  {
    hide Conclude, Enter1;
    match frame
    case Finish(node) => WidenConclude(s, t, node, outcome, width);
    case Continuation(node, _) => WidenConclude(s, t, node, outcome, width);
    case Bind(_, _) => WidenBind(s, t, frame, outcome, max, room, width, more, wide);
    case Unbind(slot, previous) => WidenSet(t.env, slot, previous, seq(width - |t.env|, _ => None));
    case Condition(c, body, left, value) =>
      if outcome.Ok? && s.h.truth(outcome.value) == Ok(true) && left > 0 {
        WidenEnter1(t, Iteration(c, body, left - 1), body, s.h.influence(value, outcome.value), max, room, width, more,
          wide);
      }
    case Iteration(c, body, left) =>
      if outcome.Ok? {
        WidenEnter1(t, Condition(c, body, left, outcome.value), c, outcome.value, max, room, width, more, wide);
      }
    case _ =>
  }

  lemma WidenBind(s: Setting, t: Task, frame: FrameKind, outcome: Res, max: nat, room: int, width: nat, more: nat,
      wide: int)
    requires max <= more && room <= wide && |t.env| <= width && frame.Bind? && frame.slot < |t.env|
    requires !Short(PopFrame(s, t, frame, outcome, max, room))
    ensures PopFrame(s, Widen(t, width), frame, outcome, more, wide) ==
      WidenLocal(PopFrame(s, t, frame, outcome, max, room), width)
  {
    if outcome.Ok? {
      WidenSet(t.env, frame.slot, Some(outcome.value), seq(width - |t.env|, _ => None));
    }
  }

  lemma WidenUnwind(s: Setting, t: Task, max: nat, room: int, width: nat, more: nat, wide: int)
    requires max <= more && room <= wide && |t.env| <= width && Narrow(s, |t.env|, t) && t.state.Returning?
    requires !Short(Unwind(s, t, max, room))
    ensures Unwind(s, Widen(t, width), more, wide) == WidenLocal(Unwind(s, t, max, room), width)
  {
    hide PopFrame;
    if t.stack != [] {
      var top := |t.stack| - 1;
      var kept := t.(state := Ready, input := Some(Kept(s.h, t)), stack := t.stack[..top]);
      WidenPop(s, kept, t.stack[top], Carried(s.h, t), max, room + 1, width, more, wide + 1);
    }
  }

  lemma WidenAnswer(s: Setting, t: Task, event: HostEvent, max: nat, room: int, width: nat, more: nat, wide: int)
    requires max <= more && room <= wide && |t.env| <= width && t.state.Waiting?
    requires !Short(Answer(s, t, event, max, room))
    ensures Answer(s, Widen(t, width), event, more, wide) == WidenLocal(Answer(s, t, event, max, room), width)
  {
  }

  // ----- the machine -----

  /** The same tasks in a longer table with longer rows. */
  ghost predicate Wider(tasks: seq<Task>, other: seq<Task>, width: nat) {
    && |tasks| <= |other|
    && (forall i :: 0 <= i < |tasks| ==> |tasks[i].env| <= width && other[i] == Widen(tasks[i], width))
    && (forall i :: |tasks| <= i < |other| ==> other[i] == Idle(width))
  }

  /** The cursor is at the same task, or past the end of the shorter table. */
  predicate SameCursor(cursor: nat, n: nat, other: nat, more: nat) {
    cursor < n && other < more && (other == cursor || (cursor == 0 && n <= other))
  }

  /** `g` is `m` in storage at least as large. */
  ghost predicate Larger(m: Machine, g: Machine) {
    && |m.tasks| > 0 && Wider(m.tasks, g.tasks, g.limits.bindingsPerTask)
    && SameCursor(m.cursor, |m.tasks|, g.cursor, |g.tasks|)
    && m.limits.framesPerTask <= g.limits.framesPerTask && m.limits.bindingsPerTask <= g.limits.bindingsPerTask
    && m.capacity <= g.capacity
    && g == Machine(g.tasks, g.capacity,
                    Limits(g.limits.framesPerTask, g.limits.bindingsPerTask, m.limits.maxSteps, m.limits.cleanupSteps),
                    m.steps, m.cleanupSteps, m.ticket, g.cursor, m.aborting, m.imageId)
  }

  lemma WiderSet(tasks: seq<Task>, other: seq<Task>, width: nat, i: nat, t: Task)
    requires Wider(tasks, other, width) && i < |tasks| && |t.env| <= width
    ensures Wider(tasks[i := t], other[i := Widen(t, width)], width)
  {
  }

  lemma LargerRoom(m: Machine, g: Machine)
    requires Larger(m, g)
    ensures Room(m) <= Room(g)
  {
    OccupiedPadded(m.tasks, g.tasks);
  }

  lemma SettleLarger(s: Setting, m: Machine, g: Machine, i: nat, l: Local)
    requires Larger(m, g) && i < |m.tasks| && !l.Spawn? && |l.task.env| <= g.limits.bindingsPerTask
    ensures var a, b := Settle(s, m, i, l), Settle(s, g, i, WidenLocal(l, g.limits.bindingsPerTask));
      Larger(a.m, b.m) && a.out == b.out
  {
    var w := g.limits.bindingsPerTask;
    hide FaultResult;
    if l.Trap? {
      WidenFault(s.h, l.task, l.fault, w);
      WiderSet(m.tasks, g.tasks, w, i, Return(l.task, FaultResult(s.h, l.task, l.fault)));
      hide Wider;
    } else {
      WiderSet(m.tasks, g.tasks, w, i, l.task);
      hide Wider;
    }
  }

  lemma {:induction false} SameFree(tasks: seq<Task>, other: seq<Task>, width: nat, from: nat)
    requires Wider(tasks, other, width) && FirstFree(tasks, from).Some?
    ensures FirstFree(other, from) == FirstFree(tasks, from)
    decreases |tasks| - from
  {
    if !tasks[from].state.Free? {
      SameFree(tasks, other, width, from + 1);
    }
  }

  lemma WidenChild(slot: Task, i: nat, t: Task, pc: nat, input: V, width: nat)
    ensures Child(Widen(slot, width), i, Widen(t, width), pc, input) == Widen(Child(slot, i, t, pc, input), width)
  {
  }

  lemma WiderAt(tasks: seq<Task>, other: seq<Task>, width: nat, i: nat)
    requires Wider(tasks, other, width) && i < |tasks|
    ensures i < |other| && other[i] == Widen(tasks[i], width)
  {
  }

  lemma ForkedWider(
    m: Machine, g: Machine, width: nat, i: nat, t: Task, a: nat, b: nat, left: nat, right: nat, join: Join, input: V)
    requires Wider(m.tasks, g.tasks, width) && i < |m.tasks| && a < |m.tasks| && b < |m.tasks| && |t.env| <= width
    ensures |m.tasks| <= |g.tasks|
    ensures Wider(Forked(m, i, t, a, b, left, right, join, input).tasks,
                  Forked(g, i, Widen(t, width), a, b, left, right, join, input).tasks, width)
  {
    WiderAt(m.tasks, g.tasks, width, a);
    WiderAt(m.tasks, g.tasks, width, b);
    WiderAt(m.tasks, g.tasks, width, i);
    hide Wider, Widen, Child;
    var x, y := Child(m.tasks[a], i, t, left, input), Child(m.tasks[b], i, t, right, input);
    WidenChild(m.tasks[a], i, t, left, input, width);
    WidenChild(m.tasks[b], i, t, right, input, width);
    ChildRow(m.tasks[a], i, t, left, input);
    ChildRow(m.tasks[b], i, t, right, input);
    WiderSet(m.tasks, g.tasks, width, a, x);
    WiderSet(m.tasks[a := x], g.tasks[a := Widen(x, width)], width, b, y);
    var u := t.(state := Joining(JoinState(a, b, join, t.pc)));
    JoiningWide(t, width, u.state);
    WiderSet(m.tasks[a := x][b := y], g.tasks[a := Widen(x, width)][b := Widen(y, width)], width, i, u);
  }

  lemma ChildRow(slot: Task, i: nat, t: Task, pc: nat, input: V)
    ensures Child(slot, i, t, pc, input).env == t.env
  {
  }

  lemma JoiningWide(t: Task, width: nat, state: State)
    ensures Widen(t, width).(state := state) == Widen(t.(state := state), width) && Widen(t, width).pc == t.pc
  {
  }

  lemma SpawnLarger(s: Setting, m: Machine, g: Machine, i: nat, t: Task, left: nat, right: nat, join: Join, input: V)
    requires Larger(m, g) && i < |m.tasks| && S.TwoSlots(m.tasks) && |t.env| <= g.limits.bindingsPerTask
    ensures Larger(SpawnTasks(s, m, i, t, left, right, join, input),
                   SpawnTasks(s, g, i, Widen(t, g.limits.bindingsPerTask), left, right, join, input))
  {
    hide FirstFree, Wider, Widen;
    var w := g.limits.bindingsPerTask;
    var a := FirstFree(m.tasks, 0).value;
    SameFree(m.tasks, g.tasks, w, 0);
    SameFree(m.tasks, g.tasks, w, a + 1);
    ForkedWider(m, g, w, i, t, a, FirstFree(m.tasks, a + 1).value, left, right, join, input);
  }

  // ----- joins -----

  /** Ancestors do not depend on the length of the table. */
  lemma SameUnder(tasks: seq<Task>, other: seq<Task>, tree: Tree, width: nat, i: nat, root: nat)
    requires Wider(tasks, other, width) && Shape(tasks, tree, None, 0) && Distinct(tree) && i in Ids(tree)
    ensures Under(other, i, root, |other|) == Under(tasks, i, root, |tasks|)
  {
    forall k | k in Ids(tree) ensures k < |tasks| {
      ParentIn(tasks, tree, k);
    }
    ShapeAlike(tasks, other, tree, None, 0);
    LevelBelow(tasks, tree, i);
    UnderLevel(tasks, tree, i, root, |tasks|);
    UnderLevel(other, tree, i, root, |other|);
    UnderSame(tasks, other, tree, width, i, root, Level(tree, i));
  }

  lemma {:induction false} UnderSame(tasks: seq<Task>, other: seq<Task>, tree: Tree, width: nat, i: nat, root: nat,
      fuel: nat)
    requires Wider(tasks, other, width) && Shape(tasks, tree, None, 0) && Distinct(tree) && i in Ids(tree)
    ensures Under(other, i, root, fuel) == Under(tasks, i, root, fuel)
    decreases fuel
  {
    ParentIn(tasks, tree, i);
    if fuel > 0 && tasks[i].parent.Some? {
      UnderSame(tasks, other, tree, width, tasks[i].parent.value, root, fuel - 1);
    }
  }

  lemma CancelTreeWider(s: Setting, m: Machine, tree: Tree, other: seq<Task>, width: nat, root: nat)
    requires Inv(s, m, tree) && Wider(m.tasks, other, width) && root < |m.tasks|
    ensures Wider(CancelTree(m.tasks, root), CancelTree(other, root), width)
  {
    var tasks := m.tasks;
    forall i | 0 <= i < |tasks| ensures CancelTree(other, root)[i] == Widen(CancelTree(tasks, root)[i], width) {
      if i in Ids(tree) {
        SameUnder(tasks, other, tree, width, i, root);
      } else {
        assert tasks[i].state.Free? && tasks[i].parent.None?;
      }
    }
  }

  lemma RacedWider(s: Setting, m: Machine, tree: Tree, other: seq<Task>, width: nat, j: JoinState)
    requires Inv(s, m, tree) && Wider(m.tasks, other, width) && j.left < |m.tasks| && j.right < |m.tasks|
    ensures Wider(Raced(m.tasks, j), Raced(other, j), width)
    ensures BothDone(other, j) <==> BothDone(m.tasks, j)
    ensures BothDone(m.tasks, j) ==> Merged(s.h, other, j) == Merged(s.h, m.tasks, j)
  {
    WiderAt(m.tasks, other, width, j.left);
    WiderAt(m.tasks, other, width, j.right);
    CancelTreeWider(s, m, tree, other, width, j.left);
    CancelTreeWider(s, m, tree, other, width, j.right);
    WiderAt(Raced(m.tasks, j), Raced(other, j), width, j.left);
    hide Inv, Wider, CancelTree;
  }

  lemma JoinLarger(s: Setting, m: Machine, g: Machine, tree: Tree, i: nat)
    requires Inv(s, m, tree) && Larger(m, g) && i in Ids(tree) && i < |m.tasks| && m.tasks[i].state.Joining?
    ensures i < |g.tasks| && g.tasks[i].state.Joining?
    ensures Larger(JoinStep(s, m, i).m, JoinStep(s, g, i).m) && JoinStep(s, m, i).out == JoinStep(s, g, i).out
  {
    var j, w := m.tasks[i].state.pair, g.limits.bindingsPerTask;
    WaitingOn(s, m, tree, i);
    RacedWider(s, m, tree, g.tasks, w, j);
    WiderAt(m.tasks, g.tasks, w, i);
    WiderAt(Raced(m.tasks, j), Raced(g.tasks, j), w, i);
    IdleWide(m.limits.bindingsPerTask, w);
    hide Inv, Wider, Raced, Merged, Idle, Settle, Conclude, Widen;
    if BothDone(m.tasks, j) {
      var a, b := Raced(m.tasks, j), Raced(g.tasks, j);
      var x, y := Idle(m.limits.bindingsPerTask), Idle(w);
      WiderSet(a, b, w, j.left, x);
      WiderSet(a[j.left := x], b[j.left := y], w, j.right, x);
      var l := Conclude(s, a[i], j.node, Merged(s.h, m.tasks, j));
      WidenConclude(s, a[i], j.node, Merged(s.h, m.tasks, j), w);
      ConcludeRow(s, a[i], j.node, Merged(s.h, m.tasks, j));
      SettleLarger(s, m.(tasks := a[j.left := x][j.right := x]), g.(tasks := b[j.left := y][j.right := y]), i, l);
    }
  }

  lemma WaitingOn(s: Setting, m: Machine, tree: Tree, i: nat)
    requires Inv(s, m, tree) && i in Ids(tree) && i < |m.tasks| && m.tasks[i].state.Joining?
    ensures var j := m.tasks[i].state.pair;
      && j.left < |m.tasks| && j.right < |m.tasks| && i != j.left && i != j.right
      && |Raced(m.tasks, j)[i].env| == m.limits.bindingsPerTask
  {
    ChildrenIn(m.tasks, tree, i);
    assert TaskOk(s.image, m.limits, m.tasks[i]);
  }

  lemma ConcludeRow(s: Setting, t: Task, node: nat, r: Res)
    ensures Conclude(s, t, node, r).task.env == t.env && !Conclude(s, t, node, r).Spawn?
  {
  }

  // ----- one pass -----

  lemma BeginRow(s: Setting, t: Task, max: nat, room: int, ticket: nat)
    ensures |Begin(s, t, max, room, ticket).task.env| == |t.env|
  {
  }

  lemma UnwindRow(s: Setting, t: Task, max: nat, room: int)
    requires t.state.Returning?
    ensures |Unwind(s, t, max, room).task.env| == |t.env| && !Unwind(s, t, max, room).Spawn?
  {
  }

  lemma AnswerRow(s: Setting, t: Task, event: HostEvent, max: nat, room: int)
    requires t.state.Waiting?
    ensures |Answer(s, t, event, max, room).task.env| == |t.env| && !Answer(s, t, event, max, room).Spawn?
  {
  }

  lemma NarrowAt(s: Setting, m: Machine, tree: Tree, i: nat)
    requires Inv(s, m, tree) && i < |m.tasks|
    ensures Narrow(s, |m.tasks[i].env|, m.tasks[i]) && |m.tasks[i].env| == m.limits.bindingsPerTask
    ensures m.tasks[i].state.Ready? ==> s.image.Has(m.tasks[i].pc)
  {
    assert TaskOk(s.image, m.limits, m.tasks[i]);
  }

  /** The smaller storage runs out in this transition. */
  predicate RunsOut(s: Setting, m: Machine, i: nat)
    requires i < |m.tasks|
  {
    var fault := S.Raised(s, m, i);
    fault == Some(Tasks) || fault == Some(Frames)
  }

  lemma TransitionLarger(s: Setting, m: Machine, g: Machine, tree: Tree, i: nat)
    requires Inv(s, m, tree) && Larger(m, g) && i in Ids(tree) && i < |m.tasks| && !RunsOut(s, m, i)
    ensures i < |g.tasks|
    ensures Larger(Transition(s, m, i).m, Transition(s, g, i).m) && Transition(s, m, i).out == Transition(s, g, i).out
  {
    var t, w := m.tasks[i], g.limits.bindingsPerTask;
    NarrowAt(s, m, tree, i);
    WiderAt(m.tasks, g.tasks, w, i);
    LargerRoom(m, g);
    hide Inv, Wider, Settle, JoinStep, Begin, Unwind, Room, S.TwoSlots, SpawnTasks;
    match t.state
    case Returning(_) =>
      WidenUnwind(s, t, m.limits.framesPerTask, Room(m), w, g.limits.framesPerTask, Room(g));
      UnwindRow(s, t, m.limits.framesPerTask, Room(m));
      SettleLarger(s, m, g, i, Unwind(s, t, m.limits.framesPerTask, Room(m)));
    case Joining(_) => JoinLarger(s, m, g, tree, i);
    case Ready =>
      var l := Begin(s, t, m.limits.framesPerTask, Room(m), m.ticket);
      WidenBegin(s, t, m.limits.framesPerTask, Room(m), m.ticket, w, g.limits.framesPerTask, Room(g));
      BeginRow(s, t, m.limits.framesPerTask, Room(m), m.ticket);
      if l.Spawn? {
        SpawnLarger(s, m, g, i, l.task, l.left, l.right, l.join, l.shared);
        SettleSpawn(s, m, i, l);
        SettleSpawn(s, g, i, WidenLocal(l, w));
      } else {
        SettleLarger(s, m, g, i, l);
      }
    case _ =>
  }

  lemma SettleSpawn(s: Setting, m: Machine, i: nat, l: Local)
    requires i < |m.tasks| && l.Spawn?
    ensures Settle(s, m, i, l) == Turn(SpawnTasks(s, m, i, l.task, l.left, l.right, l.join, l.shared), None)
  {
  }

  lemma CancelLarger(m: Machine, g: Machine)
    requires Larger(m, g)
    ensures |g.tasks| > 0 && Larger(Cancel(m), Cancel(g))
  {
  }

  lemma {:induction false} ControlWider(h: Values, tasks: seq<Task>, other: seq<Task>, width: nat)
    requires Wider(tasks, other, width)
    ensures TasksControl(h, other) == TasksControl(h, tasks)
    decreases |other|
  {
    if |other| > |tasks| {
      ControlWider(h, tasks, other[..|other| - 1], width);
    } else if tasks != [] {
      ControlWider(h, tasks[..|tasks| - 1], other[..|other| - 1], width);
    }
  }

  lemma LookWider(s: Setting, m: Machine, tree: Tree, other: seq<Task>, width: nat, i: nat)
    requires Inv(s, m, tree) && Wider(m.tasks, other, width) && i < |other|
    ensures Look(other, i) == if i < |m.tasks| then Look(m.tasks, i) else Skip
  {
    if i < |m.tasks| && m.tasks[i].state.Joining? {
      assert i in Ids(tree);
      WaitingOn(s, m, tree, i);
      hide Inv;
    }
  }

  /** The scheduler picks the same task. */
  lemma ScanLarger(s: Setting, m: Machine, g: Machine, tree: Tree)
    requires Inv(s, m, tree) && Larger(m, g)
    ensures |g.tasks| > 0 && Scan(g.tasks, g.cursor, 0) == Scan(m.tasks, m.cursor, 0)
  {
    ScanFirst(m.tasks, m.cursor);
    ScanFirst(g.tasks, g.cursor);
    forall i | 0 <= i < |g.tasks| ensures Look(g.tasks, i) == if i < |m.tasks| then Look(m.tasks, i) else Skip {
      LookWider(s, m, tree, g.tasks, g.limits.bindingsPerTask, i);
    }
    hide Inv, Wider, Look, Scan;
    var a, b := Scan(m.tasks, m.cursor, 0), Scan(g.tasks, g.cursor, 0);
    if a.Some? {
      assert Look(g.tasks, a.value) != Skip && b.Some? && Look(m.tasks, b.value) != Skip;
    }
  }

  lemma QuotedLarger(s: Setting, m: Machine, g: Machine, tree: Tree)
    requires Inv(s, m, tree) && Larger(m, g)
    ensures |g.tasks| > 0 && Larger(Quoted(m), Quoted(g)) && Inv(s, Quoted(m), tree)
    ensures Terminal(g.tasks[0].state) == Terminal(m.tasks[0].state) && g.tasks[0].state == m.tasks[0].state
  {
    CancelKeeps(s, m, tree);
    CancelLarger(m, g);
    WiderAt(m.tasks, g.tasks, g.limits.bindingsPerTask, 0);
    hide Inv, Wider, Cancel;
  }

  lemma ConvertLarger(s: Setting, m: Machine, g: Machine, i: nat)
    requires Larger(m, g) && i < |m.tasks|
    ensures i < |g.tasks|
    ensures Larger(SetTask(m, i, Convert(s.h, m.tasks[i])), SetTask(g, i, Convert(s.h, g.tasks[i])))
  {
    var w := g.limits.bindingsPerTask;
    WiderAt(m.tasks, g.tasks, w, i);
    assert |m.tasks[i].env| <= w;
    WidenFault(s.h, m.tasks[i], Cancelled, w);
    WiderSet(m.tasks, g.tasks, w, i, Convert(s.h, m.tasks[i]));
    hide Wider, FaultResult;
  }

  lemma SpendLarger(m: Machine, g: Machine, i: nat)
    requires Larger(m, g) && i < |m.tasks|
    ensures i < |g.tasks| && Larger(Spend(m, i), Spend(g, i))
  {
    Wraps(i + 1, |m.tasks|);
    Wraps(i + 1, |g.tasks|);
    hide Wider;
  }

  lemma HaltLarger(s: Setting, m: Machine, g: Machine, layout: seq<FrameKind>)
    requires Larger(m, g)
    ensures |g.tasks| > 0 && Larger(Halt(s, m, layout).m, Halt(s, g, layout).m)
      && Halt(s, m, layout).out == Halt(s, g, layout).out
  {
    var w := g.limits.bindingsPerTask;
    ControlWider(s.h, m.tasks, g.tasks, w);
    WiderAt(m.tasks, g.tasks, w, 0);
    assert |m.tasks[0].env| <= w;
    var result := TerminalFault(s.h, m.tasks, layout, Fuel);
    WiderSet(m.tasks, g.tasks, w, 0, m.tasks[0].(state := Halted(result, JoinOf(m.tasks[0].state))));
    hide Wider, TasksControl;
  }

  /** The smaller storage runs out in this call. */
  predicate Strains(s: Setting, m: Machine, move: Move)
    requires |m.tasks| > 0
  {
    match move
    case Tick(_) => Acting(s, m).Some? && RunsOut(s, Acting(s, m).value.0, Acting(s, m).value.1)
    case Respond(i, ticket, event) => Deliver(s, m, i, ticket, event).refusal == Some(Frames)
    case _ => false
  }

  lemma DispatchLarger(s: Setting, m: Machine, g: Machine, tree: Tree, i: nat, layout: seq<FrameKind>)
    requires Inv(s, m, tree) && Larger(m, g) && i in Ids(tree) && i < |m.tasks|
    requires (m.aborting && m.cleanupSteps >= m.limits.cleanupSteps) || !RunsOut(s, Spend(m, i), i)
    ensures i < |g.tasks|
    ensures Larger(Dispatch(s, m, i, layout).m, Dispatch(s, g, i, layout).m)
    ensures Dispatch(s, m, i, layout).out == Dispatch(s, g, i, layout).out
  {
    SpendLarger(m, g, i);
    HaltLarger(s, m, g, layout);
    SpendKeeps(s, m, tree, i);
    hide Inv, Wider, Halt, Transition, RunsOut;
    if !(m.aborting && m.cleanupSteps >= m.limits.cleanupSteps) {
      TransitionLarger(s, Spend(m, i), Spend(g, i), tree, i);
    }
  }

  lemma ScheduleLarger(s: Setting, m: Machine, g: Machine, tree: Tree, layout: seq<FrameKind>)
    requires Inv(s, m, tree) && Larger(m, g) && !Terminal(m.tasks[0].state)
    requires var pick := Scan(m.tasks, m.cursor, 0);
      pick.None? || m.tasks[pick.value].state.Waiting? ||
      (m.aborting && m.cleanupSteps >= m.limits.cleanupSteps) ||
      !RunsOut(s, Spend(SetTask(m, pick.value, Convert(s.h, m.tasks[pick.value])), pick.value), pick.value)
    ensures |g.tasks| > 0 && Larger(Schedule(s, m, layout).m, Schedule(s, g, layout).m)
    ensures Schedule(s, m, layout).out == Schedule(s, g, layout).out
  {
    ScanLarger(s, m, g, tree);
    hide Inv, Wider, Scan, Dispatch, Convert, RunsOut, Spend;
    var pick := Scan(m.tasks, m.cursor, 0);
    if pick.Some? {
      var i := pick.value;
      WiderAt(m.tasks, g.tasks, g.limits.bindingsPerTask, i);
      if !m.tasks[i].state.Waiting? {
        ConvertKeeps(s, m, tree, i);
        ConvertLarger(s, m, g, i);
        DispatchLarger(s, SetTask(m, i, Convert(s.h, m.tasks[i])), SetTask(g, i, Convert(s.h, g.tasks[i])), tree, i,
          layout);
      }
    }
  }

  lemma TickLarger(s: Setting, m: Machine, g: Machine, tree: Tree, layout: seq<FrameKind>)
    requires Inv(s, m, tree) && Larger(m, g) && !Strains(s, m, Tick(layout))
    ensures |g.tasks| > 0 && Larger(Iterate(s, m, layout).m, Iterate(s, g, layout).m)
    ensures Iterate(s, m, layout).out == Iterate(s, g, layout).out
  {
    QuotedLarger(s, m, g, tree);
    hide Inv, Wider, Scan, Schedule, Convert, RunsOut, Spend, Cancel;
    if !Terminal(m.tasks[0].state) {
      QuotedRoot(m);
      ScheduleLarger(s, Quoted(m), Quoted(g), tree, layout);
    }
  }

  lemma DeliverLarger(s: Setting, m: Machine, g: Machine, tree: Tree, i: nat, ticket: nat, event: HostEvent)
    requires Inv(s, m, tree) && Larger(m, g) && Deliver(s, m, i, ticket, event).refusal != Some(Frames)
    ensures |g.tasks| > 0
    ensures var a, b := Deliver(s, m, i, ticket, event), Deliver(s, g, i, ticket, event);
      Larger(a.m, b.m) && a.refusal == b.refusal
  {
    var w := g.limits.bindingsPerTask;
    WiderAt(m.tasks, g.tasks, w, 0);
    if i < |m.tasks| {
      WiderAt(m.tasks, g.tasks, w, i);
      NarrowAt(s, m, tree, i);
    } else if i < |g.tasks| {
      assert g.tasks[i].state.Free?;
    }
    LargerRoom(m, g);
    hide Inv, Wider, Answer, Room;
    if Pending(m, i, ticket) {
      var max := m.limits.framesPerTask;
      WidenAnswer(s, m.tasks[i], event, max, Room(m), w, g.limits.framesPerTask, Room(g));
      AnswerRow(s, m.tasks[i], event, max, Room(m));
      WiderSet(m.tasks, g.tasks, w, i, Answer(s, m.tasks[i], event, max, Room(m)).task);
    }
  }

  // ----- whole runs -----

  lemma {:induction false} FramesWider(tasks: seq<Task>, other: seq<Task>, width: nat)
    requires Wider(tasks, other, width)
    ensures AllFrames(other) == AllFrames(tasks)
    decreases |other|
  {
    if |other| > |tasks| {
      FramesWider(tasks, other[..|other| - 1], width);
    } else if tasks != [] {
      FramesWider(tasks[..|tasks| - 1], other[..|other| - 1], width);
    }
  }

  /** Both machines answer the call alike. */
  ghost predicate Agree(s: Setting, m: Machine, g: Machine, move: Move)
    requires |m.tasks| > 0 && |g.tasks| > 0
  {
    && Apply(s, m, move).out == Apply(s, g, move).out
    && (move.Respond? ==>
          Deliver(s, m, move.task, move.ticket, move.event).refusal ==
            Deliver(s, g, move.task, move.ticket, move.event).refusal)
  }

  lemma ApplyLarger(s: Setting, m: Machine, g: Machine, tree: Tree, move: Move)
    requires Inv(s, m, tree) && Larger(m, g) && Legal(m, move) && !move.Resize? && !Strains(s, m, move)
    ensures |g.tasks| > 0 && Legal(g, move) && Agree(s, m, g, move) && Larger(Apply(s, m, move).m, Apply(s, g, move).m)
  {
    FramesWider(m.tasks, g.tasks, g.limits.bindingsPerTask);
    CancelLarger(m, g);
    hide Inv, Larger, Iterate, Deliver, AllFrames, Cancel;
    match move
    case Tick(layout) => TickLarger(s, m, g, tree, layout);
    case Respond(i, ticket, event) => DeliverLarger(s, m, g, tree, i, ticket, event);
    case Abort =>
  }

  lemma GrowLarger(s: Setting, m: Machine, tree: Tree, tasks: nat, capacity: nat, frames: nat, bindings: nat)
    requires Inv(s, m, tree) && Legal(m, Resize(tasks, capacity, frames, bindings))
    ensures Larger(m, Grow(m, tasks, capacity, frames, bindings))
  {
    var g := Grow(m, tasks, capacity, frames, bindings);
    forall i | 0 <= i < |m.tasks| ensures |m.tasks[i].env| <= bindings && g.tasks[i] == Widen(m.tasks[i], bindings) {
      assert TaskOk(s.image, m.limits, m.tasks[i]);
    }
  }

  /** The same host calls on another machine. */
  ghost predicate Replays(s: Setting, states: seq<Machine>, moves: seq<Move>) {
    && |states| == |moves| + 1 && (forall t :: 0 <= t < |states| ==> |states[t].tasks| > 0)
    && forall t :: 0 <= t < |moves| ==> states[t + 1] == Apply(s, states[t], moves[t]).m
  }

  /** At every point the replay is in step with the original. */
  lemma {:induction false} ReplayInStep(
    s: Setting, l: Launch, states: seq<Machine>, moves: seq<Move>, k: nat, alt: seq<Machine>, t: nat)
      returns (tree: Tree)
    requires Launched(s, l, states, moves) && k <= t <= |moves| && Replays(s, alt, moves[k..])
      && Larger(states[k], alt[0])
    requires forall i :: k <= i < |moves| ==> !moves[i].Resize? && !Strains(s, states[i], moves[i])
    ensures Larger(states[t], alt[t - k]) && Inv(s, states[t], tree)
    decreases t
  {
    hide Apply, Inv, Legal, Larger, Strains, First;
    tree := StateAt(s, l, states, moves, t);
    if k < t {
      var before := ReplayInStep(s, l, states, moves, k, alt, t - 1);
      assert moves[k..][t - 1 - k] == moves[t - 1];
      ApplyLarger(s, states[t - 1], alt[t - 1 - k], before, moves[t - 1]);
    }
  }

  /** Suspend a run at any point, hand its slots back in larger storage and resume: the same
      host calls get the same answers, for as long as the original storage does not run out. */
  lemma GrowthInvisible(
    s: Setting, l: Launch, states: seq<Machine>, moves: seq<Move>, k: nat,
    tasks: nat, capacity: nat, frames: nat, bindings: nat, alt: seq<Machine>)
    requires Launched(s, l, states, moves) && k <= |moves|
      && Legal(states[k], Resize(tasks, capacity, frames, bindings))
    requires Replays(s, alt, moves[k..]) && alt[0] == Grow(states[k], tasks, capacity, frames, bindings)
    requires forall t :: k <= t < |moves| ==> !moves[t].Resize? && !Strains(s, states[t], moves[t])
    ensures IsRun(s, alt, moves[k..])
    ensures forall t :: k <= t < |moves| ==> Agree(s, states[t], alt[t - k], moves[t])
  {
    var tree := StateAt(s, l, states, moves, k);
    GrowLarger(s, states[k], tree, tasks, capacity, frames, bindings);
    hide Apply, Inv, Legal, Larger, Agree, Strains, Grow, First;
    forall t | k <= t < |moves| ensures Legal(alt[t - k], moves[t]) && Agree(s, states[t], alt[t - k], moves[t]) {
      var at := ReplayInStep(s, l, states, moves, k, alt, t);
      ApplyLarger(s, states[t], alt[t - k], at, moves[t]);
    }
    forall t | 0 <= t < |moves[k..]| ensures Legal(alt[t], moves[k..][t]) {
      assert moves[k..][t] == moves[t + k] && alt[t] == alt[t + k - k];
    }
  }

  // ----- each pool in its own order -----

  /** `g` with plan `q` is `m` with plan `p` in storage at least as large. */
  ghost predicate Together(m: Machine, g: Machine, p: A.Plan, q: A.Plan) {
    Larger(m, g) && 0 < |p.paths| == |m.tasks| <= |g.tasks| && q == P.Padded(p, |g.tasks|)
  }

  /** The same call, up to the order in which a pass sees the frames. */
  ghost predicate SameCall(move: Move, call: Move) { if move.Tick? then call.Tick? else call == move }

  /** A pass sees the frames in the order of the pool it runs on. */
  ghost predicate OwnOrder(m: Machine, p: A.Plan, move: Move) { move.Tick? ==> move.layout == P.Order(p, m) }

  lemma OrderLarger(m: Machine, g: Machine, p: A.Plan, q: A.Plan)
    requires Together(m, g, p, q)
    ensures P.Order(q, g) == P.Order(p, m)
  {
    P.ListedPadded(p.place, P.StacksOf(m.tasks), P.StacksOf(g.tasks));
  }

  lemma PickPlanLarger(s: Setting, m: Machine, g: Machine, tree: Tree, p: A.Plan, q: A.Plan, after: Machine,
      other: Machine)
    requires Inv(s, m, tree) && Together(m, g, p, q) && Larger(after, other) && |after.tasks| == |m.tasks|
    ensures |g.tasks| > 0 && |P.PickPlan(s, m, p, after).paths| == |p.paths|
    ensures P.PickPlan(s, g, q, other) == P.Padded(P.PickPlan(s, m, p, after), |g.tasks|)
  {
    ScanLarger(s, m, g, tree);
    hide Inv, Scan, Convert, A.Replanned;
    var pick := Scan(m.tasks, m.cursor, 0);
    if pick.Some? {
      var i := pick.value;
      WiderAt(m.tasks, g.tasks, g.limits.bindingsPerTask, i);
      WiderAt(after.tasks, other.tasks, other.limits.bindingsPerTask, i);
      ConvertState(s.h, m.tasks[i], g.limits.bindingsPerTask);
      P.ReplannedPadded(p, |g.tasks|, i, Convert(s.h, m.tasks[i]).state.Returning?, |after.tasks[i].stack|);
    }
  }

  lemma ConvertState(h: Values, t: Task, width: nat)
    ensures Convert(h, Widen(t, width)).state.Returning? == Convert(h, t).state.Returning?
  {
  }

  lemma PlanLarger(s: Setting, m: Machine, g: Machine, tree: Tree, move: Move, p: A.Plan, q: A.Plan)
    requires Inv(s, m, tree) && Together(m, g, p, q) && !move.Resize? && |m.tasks| > 0 && |g.tasks| > 0
    requires Larger(Apply(s, m, move).m, Apply(s, g, move).m)
    requires |Apply(s, m, move).m.tasks| == |m.tasks| && |Apply(s, g, move).m.tasks| == |g.tasks|
    ensures |P.PlanAfter(s, m, move, p).paths| == |p.paths|
    ensures P.PlanAfter(s, g, move, q) == P.Padded(P.PlanAfter(s, m, move, p), |g.tasks|)
  {
    var after, other := Apply(s, m, move).m, Apply(s, g, move).m;
    hide Apply, Inv, Larger, P.PickPlan, A.Lengthened, Quoted;
    match move
    case Tick(_) =>
      QuotedLarger(s, m, g, tree);
      if !Terminal(m.tasks[0].state) {
        QuotedSize(m);
        QuotedSize(g);
        PickPlanLarger(s, Quoted(m), Quoted(g), tree, p, q, after, other);
      }
    case Respond(i, _, _) =>
      if i < |m.tasks| {
        StackLarger(after, other, i);
        P.LengthenedPadded(p, |g.tasks|, i, |after.tasks[i].stack|);
      } else if i < |g.tasks| {
        IdleLarger(after, other, i);
      }
    case Abort =>
  }

  lemma QuotedSize(m: Machine)
    requires |m.tasks| > 0
    ensures |Quoted(m).tasks| == |m.tasks|
  {
  }

  lemma StackLarger(m: Machine, g: Machine, i: nat)
    requires Larger(m, g) && i < |m.tasks|
    ensures i < |g.tasks| && g.tasks[i].stack == m.tasks[i].stack
  {
  }

  lemma IdleLarger(m: Machine, g: Machine, i: nat)
    requires Larger(m, g) && |m.tasks| <= i < |g.tasks|
    ensures g.tasks[i].stack == []
  {
  }

  /** One call on each machine, where each pass sees its own pool. */
  lemma StepTogether(s: Setting, m: Machine, g: Machine, tree: Tree, move: Move, call: Move, p: A.Plan, q: A.Plan)
    requires Inv(s, m, tree) && Together(m, g, p, q) && Legal(m, move) && !move.Resize? && !Strains(s, m, move)
    requires SameCall(move, call) && OwnOrder(m, p, move) && OwnOrder(g, q, call) && |g.tasks| > 0
    requires |Apply(s, m, move).m.tasks| == |m.tasks| && |Apply(s, g, call).m.tasks| == |g.tasks|
    ensures call == move && Legal(g, move) && Agree(s, m, g, move)
    ensures Together(Apply(s, m, move).m, Apply(s, g, move).m, P.PlanAfter(s, m, move, p), P.PlanAfter(s, g, move, q))
  {
    hide Apply, Inv, Legal, Larger, Agree, Strains, P.PlanAfter, P.Order;
    OrderLarger(m, g, p, q);
    ApplyLarger(s, m, g, tree, move);
    PlanLarger(s, m, g, tree, move, p, q);
  }

  /** The call is not a move to other storage, and does not run out of the storage there is. */
  ghost predicate Eases(s: Setting, m: Machine, move: Move) { |m.tasks| > 0 && !move.Resize? && !Strains(s, m, move) }

  /** The first `n` calls are those of the run from step `k` on, which do not run out of storage. */
  ghost predicate Repeats(s: Setting, states: seq<Machine>, moves: seq<Move>, k: nat, calls: seq<Move>, n: nat)
    requires k + n <= |moves| && |moves| < |states| && n <= |calls|
  {
    forall i :: 0 <= i < n ==> Eases(s, states[k + i], moves[k + i]) && SameCall(moves[k + i], calls[i])
  }

  /** A run on a pool of its own, and one from step `k` on in storage at least as large: after `t`
      more calls they are in step, and every call so far saw the frames in the same order. */
  lemma {:induction false} InStep(
    s: Setting, states: seq<Machine>, moves: seq<Move>, plans: seq<A.Plan>, k: nat, start: Tree,
    alt: seq<Machine>, calls: seq<Move>, others: seq<A.Plan>, t: nat) returns (tree: Tree)
    requires IsRun(s, states, moves) && P.Laid(s, states, moves, plans) && k + t <= |moves| && Inv(s, states[k], start)
    requires Replays(s, alt, calls) && P.Laid(s, alt, calls, others) && t <= |calls|
    requires Together(states[k], alt[0], plans[k], others[0])
    requires Repeats(s, states, moves, k, calls, t)
    ensures Inv(s, states[k + t], tree) && Together(states[k + t], alt[t], plans[k + t], others[t])
    ensures forall i :: 0 <= i < t ==>
      calls[i] == moves[k + i] && Legal(alt[i], calls[i]) && Agree(s, states[k + i], alt[i], moves[k + i])
    decreases t
  {
    hide Apply, Inv, Legal, Together, Agree, Strains, P.PlanAfter, P.Order, SameCall;
    tree := start;
    if t > 0 {
      var j := t - 1;
      var before := InStep(s, states, moves, plans, k, start, alt, calls, others, j);
      assert Eases(s, states[k + j], moves[k + j]) && SameCall(moves[k + j], calls[j]);
      SameKind(moves[k + j], calls[j]);
      TableKept(s, states, moves, plans, k + j);
      TableKept(s, alt, calls, others, j);
      StepTogether(s, states[k + j], alt[j], before, moves[k + j], calls[j], plans[k + j], others[j]);
      tree := ApplyKeeps(s, states[k + j], before, moves[k + j]);
    }
  }

  lemma TableKept(s: Setting, states: seq<Machine>, moves: seq<Move>, plans: seq<A.Plan>, i: nat)
    requires Replays(s, states, moves) && P.Laid(s, states, moves, plans) && i < |moves| && !moves[i].Resize?
    ensures |Apply(s, states[i], moves[i]).m.tasks| == |states[i].tasks|
  {
    hide Apply, P.PlanAfter, P.Order;
    P.PlanOwners(s, states[i], moves[i], plans[i]);
    assert states[i + 1] == Apply(s, states[i], moves[i]).m && |states[i + 1].tasks| == |plans[i + 1].paths|;
  }

  lemma SameKind(move: Move, call: Move)
    requires SameCall(move, call) && !move.Resize?
    ensures !call.Resize?
  {
  }

  /** In place: suspend a run at any point, hand its slots back in larger storage and resume. Each
      of the two executions folds its own pool in its own slot order, and these orders are the
      same: the same host calls get the same answers, for as long as the original storage does
      not run out. */
  lemma GrowthInPlace(
    s: Setting, l: Launch, states: seq<Machine>, moves: seq<Move>, plans: seq<A.Plan>, k: nat,
    tasks: nat, capacity: nat, frames: nat, bindings: nat,
    alt: seq<Machine>, calls: seq<Move>, others: seq<A.Plan>)
    requires Launched(s, l, states, moves) && P.Laid(s, states, moves, plans)
    requires k <= |moves| && Legal(states[k], Resize(tasks, capacity, frames, bindings))
    requires Replays(s, alt, calls) && P.Laid(s, alt, calls, others) && |calls| == |moves| - k
    requires alt[0] == Grow(states[k], tasks, capacity, frames, bindings) && others[0] == P.Padded(plans[k], tasks)
    requires Repeats(s, states, moves, k, calls, |calls|)
    ensures calls == moves[k..] && IsRun(s, alt, calls)
    ensures forall t :: 0 <= t < |calls| ==> Agree(s, states[k + t], alt[t], calls[t])
  {
    var start := StateAt(s, l, states, moves, k);
    GrowLarger(s, states[k], start, tasks, capacity, frames, bindings);
    GrowSize(states[k], tasks, capacity, frames, bindings);
    hide Apply, Inv, Legal, Larger, Agree, Repeats, Grow, First, P.PlanAfter, P.Order, P.Padded;
    var last := InStep(s, states, moves, plans, k, start, alt, calls, others, |calls|);
  }

  lemma GrowSize(m: Machine, tasks: nat, capacity: nat, frames: nat, bindings: nat)
    requires |m.tasks| <= tasks
    ensures |Grow(m, tasks, capacity, frames, bindings).tasks| == tasks
  {
  }

  /** One call of `advance` on each of two executions in step, with the same fuel: both stop after
      the same passes with the same report, and are in step again. */
  lemma AdvanceInStep(
    s: Setting, tree: Tree, fuel: nat,
    states: seq<Machine>, moves: seq<Move>, plans: seq<A.Plan>, out: Advance,
    alt: seq<Machine>, calls: seq<Move>, others: seq<A.Plan>, other: Advance)
    requires P.Advances(s, states, moves, fuel, out) && P.Laid(s, states, moves, plans) && Inv(s, states[0], tree)
    requires P.Advances(s, alt, calls, fuel, other) && P.Laid(s, alt, calls, others)
    requires Together(states[0], alt[0], plans[0], others[0])
    requires forall t :: 0 <= t < |moves| ==> Eases(s, states[t], moves[t])
    ensures other == out && calls == moves
    ensures Together(states[|moves|], alt[|moves|], plans[|moves|], others[|moves|])
  {
    hide Apply, Inv, Legal, Together, Eases, P.PlanAfter, P.Order, P.Laid, Agree;
    var n := if |moves| <= |calls| then |moves| else |calls|;
    var last := InStep(s, states, moves, plans, 0, tree, alt, calls, others, n);
    forall i | 0 <= i < n
      ensures Apply(s, alt[i], calls[i]).out == Apply(s, states[i], moves[i]).out && calls[i] == moves[i]
    {
      assert calls[i] == moves[0 + i];
      AgreeOut(s, states[i], alt[i], moves[i]);
    }
    P.AdvancesAlike(s, fuel, states, moves, out, alt, calls, other);
  }

  lemma AgreeOut(s: Setting, m: Machine, g: Machine, move: Move)
    requires |m.tasks| > 0 && |g.tasks| > 0 && Agree(s, m, g, move)
    ensures Apply(s, g, move).out == Apply(s, m, move).out
  {
  }

  lemma AgreeRefusal(s: Setting, m: Machine, g: Machine, move: Move)
    requires |m.tasks| > 0 && |g.tasks| > 0 && Agree(s, m, g, move) && move.Respond?
    ensures Deliver(s, g, move.task, move.ticket, move.event).refusal ==
      Deliver(s, m, move.task, move.ticket, move.event).refusal
  {
  }
}
