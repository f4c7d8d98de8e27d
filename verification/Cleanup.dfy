/** Every guarded body that starts has its cleanup started exactly once. */
module Cleanup {
  import opened Program
  import opened Machine
  import opened Stacks
  import opened Forest
  import opened Runs
  import opened Quiescence

  /** A cleanup a task may owe: the task's slot and the frame naming entry and input. */
  datatype Guard = Guard(task: nat, frame: FrameKind)

  ghost function Count(stack: seq<FrameKind>, f: FrameKind): nat {
    if stack == [] then 0
    else Count(stack[..|stack| - 1], f) + (if stack[|stack| - 1] == f then 1 else 0)
  }

  /** How often the cleanup `g` is owed. */
  ghost function Owed(m: Machine, g: Guard): nat {
    if g.task < |m.tasks| then Count(m.tasks[g.task].stack, g.frame) else 0
  }

  /** Task `t` is about to start the body guarded by `f`. */
  ghost predicate Opens(s: Setting, t: Task, max: nat, room: int, ticket: nat, f: FrameKind) {
    && t.state.Ready? && t.input.Some? && s.image.Has(t.pc) && s.image.nodes[t.pc].kind.Finally?
    && f == FinallyFrame(s.image.nodes[t.pc].kind.cleanup, t.input.value)
    && Begin(s, t, max, room, ticket).Next?
  }

  /** Task `t` is about to start the cleanup `f`. */
  ghost predicate Closes(t: Task, f: FrameKind) {
    t.state.Returning? && t.stack != [] && t.stack[|t.stack| - 1] == f
  }

  ghost function Opened(s: Setting, m: Machine, i: nat, g: Guard): nat
    requires i < |m.tasks|
  {
    if i == g.task && Opens(s, m.tasks[i], m.limits.framesPerTask, Room(m), m.ticket, g.frame) then 1 else 0
  }

  ghost function Closed(m: Machine, i: nat, g: Guard): nat
    requires i < |m.tasks|
  {
    if i == g.task && Closes(m.tasks[i], g.frame) then 1 else 0
  }

  // ----- one task -----

  lemma CountPush(t: Task, g: FrameKind, f: FrameKind)
    ensures Count(Push(t, g).stack, f) == Count(t.stack, f) + (if g == f then 1 else 0)
  {
    assert Push(t, g).stack[..|t.stack|] == t.stack;
  }

  /** Starting an instruction owes a cleanup exactly when a `Finally` body starts. */
  lemma BeginOwes(s: Setting, t: Task, max: nat, room: int, ticket: nat, f: FrameKind)
    requires t.state.Ready? && f.FinallyFrame?
    ensures Count(Begin(s, t, max, room, ticket).task.stack, f) ==
            Count(t.stack, f) + (if Opens(s, t, max, room, ticket, f) then 1 else 0)
  {
    if s.image.Has(t.pc) && t.input.Some? {
      BeginStack(s, t, max, room, ticket);
      var opening := OpeningOf(s.image.nodes[t.pc].kind, t.input.value);
      CountPush(t, Finish(t.pc), f);
      if opening.Some? {
        CountPush(Push(t, Finish(t.pc)), opening.value.frame, f);
      }
      hide Count, Begin;
    }
  }

  /** Popping a frame discharges a cleanup exactly when the frame is that guard. */
  lemma UnwindPays(s: Setting, t: Task, max: nat, room: int, f: FrameKind)
    requires t.state.Returning? && f.FinallyFrame?
    ensures Count(Unwind(s, t, max, room).task.stack, f) + (if Closes(t, f) then 1 else 0) == Count(t.stack, f)
  {
    if t.stack != [] {
      var top := |t.stack| - 1;
      var below := t.(state := Ready, input := Some(Kept(s.h, t)), stack := t.stack[..top]);
      PopPays(s, below, t.stack[top], Carried(s.h, t), max, room + 1, f);
    }
  }

  lemma PopPays(s: Setting, t: Task, frame: FrameKind, outcome: Res, max: nat, room: int, f: FrameKind)
    requires f.FinallyFrame?
    ensures Count(PopFrame(s, t, frame, outcome, max, room).task.stack, f) == Count(t.stack, f)
  {
    hide Count;
    CountPush(t, Cleaned(outcome), f);
    match frame
    case Bind(slot, _) =>
      if slot < |t.env| { CountPush(t, Unbind(slot, t.env[slot]), f); }
    case Condition(c, body, left, _) =>
      if left > 0 { CountPush(t, Iteration(c, body, left - 1), f); }
    case Iteration(c, body, left) =>
      if outcome.Ok? { CountPush(t, Condition(c, body, left, outcome.value), f); }
    case _ =>
  }

  lemma AnswerOwes(s: Setting, t: Task, event: HostEvent, max: nat, room: int, f: FrameKind)
    requires t.state.Waiting? && f.FinallyFrame?
    ensures Count(Answer(s, t, event, max, room).task.stack, f) == Count(t.stack, f)
  {
    var node := t.state.node;
    CountPush(t, Finish(node), f);
    CountPush(Push(t, Finish(node)), Context(t.context), f);
    if event.Continue? {
      CountPush(t, Continuation(node, event.entry), f);
    }
    hide Count;
  }

  /** When a guard is discharged its cleanup entry starts on the guarded body's input,
      one cleanup level deeper, above the body's outcome. */
  lemma DischargeStarts(s: Setting, m: Machine, tree: Tree, i: nat, f: FrameKind)
    requires Inv(s, m, tree) && i in Ids(tree) && i < |m.tasks| && Closes(m.tasks[i], f) && f.FinallyFrame?
    ensures var t, u := m.tasks[i], Transition(s, m, i).m.tasks[i];
      && u.state.Ready? && u.pc == f.cleanup && u.input == Some(f.input) && u.cleaning == t.cleaning + 1
      && u.stack == t.stack[..|t.stack| - 1] + [Cleaned(Carried(s.h, t))]
  {
    ShapeAt(m.tasks, tree, None, 0, i);
    hide CleanedIn, Occupied, Restored, RestoredContext;
    UnwindOk(s, m.tasks[i], m.limits.framesPerTask, Room(m));
  }

  // ----- all tasks -----

  /** A transition changes what is owed by exactly the guards it opens and closes. */
  lemma TransitionOwes(s: Setting, m: Machine, tree: Tree, i: nat, g: Guard)
    requires Inv(s, m, tree) && i in Ids(tree) && i < |m.tasks| && g.frame.FinallyFrame?
    ensures Owed(Transition(s, m, i).m, g) + Closed(m, i, g) == Owed(m, g) + Opened(s, m, i, g)
  {
    var t := m.tasks[i];
    match t.state
    case Returning(_) => ReturningOwes(s, m, tree, i, g);
    case Joining(_) => JoinOwes(s, m, tree, i, g);
    case Ready => ReadyOwes(s, m, tree, i, g);
    case _ =>
  }

  lemma ReturningOwes(s: Setting, m: Machine, tree: Tree, i: nat, g: Guard)
    requires Inv(s, m, tree) && i in Ids(tree) && i < |m.tasks| && g.frame.FinallyFrame? && m.tasks[i].state.Returning?
    ensures Owed(Transition(s, m, i).m, g) + Closed(m, i, g) == Owed(m, g) + Opened(s, m, i, g)
  {
    hide Inv, CleanedIn, Occupied, Restored, RestoredContext, Count, Unwind, Settle, Successor;
    var max := m.limits.framesPerTask;
    LiveTask(s, m, tree, i);
    UnwindOk(s, m.tasks[i], max, Room(m));
    UnwindPays(s, m.tasks[i], max, Room(m), g.frame);
    SettleOwes(s, m, i, Unwind(s, m.tasks[i], max, Room(m)), g);
  }

  lemma ReadyOwes(s: Setting, m: Machine, tree: Tree, i: nat, g: Guard)
    requires Inv(s, m, tree) && i in Ids(tree) && i < |m.tasks| && g.frame.FinallyFrame? && m.tasks[i].state.Ready?
    ensures Owed(Transition(s, m, i).m, g) + Closed(m, i, g) == Owed(m, g) + Opened(s, m, i, g)
  {
    hide Inv, CleanedIn, Occupied, Restored, RestoredContext, Count, Begin, Settle, Successor;
    LiveTask(s, m, tree, i);
    BeginOk(s, m.tasks[i], m.limits.framesPerTask, Room(m), m.ticket);
    BeginOwes(s, m.tasks[i], m.limits.framesPerTask, Room(m), m.ticket, g.frame);
    SettleOwes(s, m, i, Begin(s, m.tasks[i], m.limits.framesPerTask, Room(m), m.ticket), g);
  }

  /** A transition changes what is owed only by its own task. */
  lemma SettleOwes(s: Setting, m: Machine, i: nat, l: Local, g: Guard)
    requires i < |m.tasks| && !m.tasks[i].state.Free?
    ensures Owed(Settle(s, m, i, l).m, g) == if g.task == i then Count(l.task.stack, g.frame) else Owed(m, g)
  {
    hide Count, SpawnTasks, FaultResult;
    if l.Spawn? {
      SpawnEffect(s, m, i, l.task, l.left, l.right, l.join, l.shared);
    }
  }

  lemma JoinOwes(s: Setting, m: Machine, tree: Tree, i: nat, g: Guard)
    requires Inv(s, m, tree) && i in Ids(tree) && i < |m.tasks| && m.tasks[i].state.Joining?
    ensures Owed(JoinStep(s, m, i).m, g) == Owed(m, g)
  {
    hide Count, CleanedIn, Occupied, Restored, RestoredContext;
    JoinEffect(s, m, tree, i);
    var j := m.tasks[i].state.pair;
    if BothDone(m.tasks, j) {
      PairIs(m.tasks, tree, i);
    }
    hide Inv, JoinStep, Raced;
  }

  ghost function OpenedBy(s: Setting, m: Machine, move: Move, g: Guard): nat
    requires |m.tasks| > 0
  {
    var a := Acting(s, m);
    if move.Tick? && a.Some? then Opened(s, a.value.0, a.value.1, g) else 0
  }

  ghost function ClosedBy(s: Setting, m: Machine, move: Move, g: Guard): nat
    requires |m.tasks| > 0
  {
    var a := Acting(s, m);
    if move.Tick? && a.Some? then Closed(a.value.0, a.value.1, g) else 0
  }

  lemma TickOwes(s: Setting, m: Machine, tree: Tree, layout: seq<FrameKind>, g: Guard)
    requires Inv(s, m, tree) && g.frame.FinallyFrame?
    ensures var move := Tick(layout);
      Owed(Iterate(s, m, layout).m, g) + ClosedBy(s, m, move, g) == Owed(m, g) + OpenedBy(s, m, move, g)
  {
    ActingMoves(s, m, layout);
    hide Iterate, Transition, Count, Opened, Closed, Inv, Acting;
    ActingKeeps(s, m, tree);
    var a := Acting(s, m);
    if a.Some? {
      TransitionOwes(s, a.value.0, tree, a.value.1, g);
    }
  }

  lemma ApplyOwes(s: Setting, m: Machine, tree: Tree, move: Move, g: Guard)
    requires Inv(s, m, tree) && Legal(m, move) && g.frame.FinallyFrame?
    ensures Owed(Apply(s, m, move).m, g) + ClosedBy(s, m, move, g) == Owed(m, g) + OpenedBy(s, m, move, g)
  {
    match move
    case Tick(layout) => TickOwes(s, m, tree, layout, g);
    case Respond(i, ticket, event) =>
      if Pending(m, i, ticket) {
        AnswerOwes(s, m.tasks[i], event, m.limits.framesPerTask, Room(m), g.frame);
        hide Count, CleanedIn, Occupied, Inv, Answer;
      }
    case Abort =>
    case Resize(_, _, _, _) =>
  }

  // ----- whole runs -----

  ghost function TimesOpened(s: Setting, states: seq<Machine>, moves: seq<Move>, g: Guard): nat
    requires |states| == |moves| + 1 && forall k :: 0 <= k < |states| ==> |states[k].tasks| > 0
  {
    if moves == [] then 0 else OpenedBy(s, states[0], moves[0], g) + TimesOpened(s, states[1..], moves[1..], g)
  }

  ghost function TimesClosed(s: Setting, states: seq<Machine>, moves: seq<Move>, g: Guard): nat
    requires |states| == |moves| + 1 && forall k :: 0 <= k < |states| ==> |states[k].tasks| > 0
  {
    if moves == [] then 0 else ClosedBy(s, states[0], moves[0], g) + TimesClosed(s, states[1..], moves[1..], g)
  }

  lemma {:induction false} RunOwes(s: Setting, states: seq<Machine>, moves: seq<Move>, tree: Tree, g: Guard)
    requires IsRun(s, states, moves) && Inv(s, states[0], tree) && g.frame.FinallyFrame?
    ensures Owed(states[|moves|], g) + TimesClosed(s, states, moves, g) ==
      Owed(states[0], g) + TimesOpened(s, states, moves, g)
  {
    if moves != [] {
      ApplyOwes(s, states[0], tree, moves[0], g);
      var next := ApplyKeeps(s, states[0], tree, moves[0]);
      hide Inv, Apply, Legal, Owed, OpenedBy, ClosedBy;
      RunOwes(s, states[1..], moves[1..], next, g);
    }
  }

  /** At every point of a run, each body started is either matched by one start of its
      cleanup or its cleanup is still owed on that task's stack. */
  lemma CleanupConserved(s: Setting, l: Launch, states: seq<Machine>, moves: seq<Move>, g: Guard)
    requires Launched(s, l, states, moves) && g.frame.FinallyFrame?
    ensures TimesOpened(s, states, moves, g) == TimesClosed(s, states, moves, g) + Owed(states[|moves|], g)
  {
    FirstInv(s, l);
    RunOwes(s, states, moves, Solo(0), g);
  }

  /** A slot whose task is done or has been freed owes nothing: its slot has started each cleanup as often as it
      has started the body it guards, whether or not other tasks still run. */
  lemma DoneTaskOwesNothing(s: Setting, l: Launch, states: seq<Machine>, moves: seq<Move>, g: Guard)
    requires Launched(s, l, states, moves) && g.frame.FinallyFrame?
    requires g.task < |states[|moves|].tasks|
    requires states[|moves|].tasks[g.task].state.Done? || states[|moves|].tasks[g.task].state.Free?
    ensures TimesOpened(s, states, moves, g) == TimesClosed(s, states, moves, g)
  {
    CleanupConserved(s, l, states, moves, g);
    var tree := StateAt(s, l, states, moves, |moves|);
    if states[|moves|].tasks[g.task].state.Done? {
      ShapeAt(states[|moves|].tasks, tree, None, 0, g.task);
    }
  }

  /** When the root is done every guarded body that ever started, in any task, has had its
      cleanup started exactly once, on that body's own input. */
  lemma EveryFinallyCleanedOnce(s: Setting, l: Launch, states: seq<Machine>, moves: seq<Move>, g: Guard)
    requires Launched(s, l, states, moves) && g.frame.FinallyFrame?
    requires states[|moves|].tasks[0].state.Done?
    ensures TimesOpened(s, states, moves, g) == TimesClosed(s, states, moves, g)
  {
    CleanupConserved(s, l, states, moves, g);
    RootDoneIsQuiet(s, l, states, moves);
  }
}
