/** Whole executions of one task: a host that answers from a script drives the machine
    to exactly what the recursive evaluator computes. */
module Realization {
  import opened Program
  import opened Machine
  import opened Runs
  import opened Scheduling
  import E = Evaluator
  import R = Refinement

  /** The root is alone, runs as `c` does, and no quota or cancellation is in force. */
  ghost predicate Alone(m: Machine, z: R.Limit, c: R.Solo) {
    && |m.tasks| > 0 && m.tasks[0] == c.task && m.cursor < |m.tasks|
    && (forall k :: 1 <= k < |m.tasks| ==> m.tasks[k] == Idle(m.limits.bindingsPerTask))
    && m.ticket == c.ticket && m.limits.maxSteps.None? && !m.aborting
    && m.limits.framesPerTask == z.max && m.capacity == z.pool
    && !c.task.cancelled && !c.task.state.Free? && !c.task.state.Joining? && !c.task.state.Halted?
  }

  /** The storage is the same. */
  predicate Same(m: Machine, n: Machine) { |m.tasks| == |n.tasks| && m.limits == n.limits }

  /** The host ticks a running root and answers a waiting one with the next reply of the script. */
  ghost predicate Driven(states: seq<Machine>, moves: seq<Move>, replies: seq<HostEvent>)
    requires |states| == |moves| + 1 && forall k :: 0 <= k < |states| ==> |states[k].tasks| > 0
  {
    moves == [] ||
    if states[0].tasks[0].state.Waiting?
    then replies != [] && moves[0] == Respond(0, states[0].tasks[0].state.ticket, replies[0])
         && Driven(states[1..], moves[1..], replies[1..])
    else moves[0].Tick? && Driven(states[1..], moves[1..], replies)
  }

  /** The host calls one move shows the host. */
  function Shown(s: Setting, m: Machine, move: Move): seq<E.Question>
    requires |m.tasks| > 0
  {
    var out := Apply(s, m, move).out;
    if out.Some? && out.value.Requested?
    then var a := out.value.request; [E.Question(a.port, a.input, a.context, a.position, a.cleanup)]
    else []
  }

  function Trace(s: Setting, states: seq<Machine>, moves: seq<Move>): seq<E.Question>
    requires |states| == |moves| + 1 && forall k :: 0 <= k < |states| ==> |states[k].tasks| > 0
  {
    if moves == [] then [] else Shown(s, states[0], moves[0]) + Trace(s, states[1..], moves[1..])
  }

  /** A lone task that is not stuck: it runs, or the script has its reply. */
  predicate Moving(s: Setting, c: R.Solo) {
    match c.task.state
    case Ready => !(s.image.Has(c.task.pc) && s.image.nodes[c.task.pc].kind.Fork? && c.task.input.Some?)
    case Returning(_) => true
    case Waiting(_, _) => c.replies != []
    case _ => false
  }

  lemma {:induction false} StuckStays(s: Setting, z: R.Limit, c: R.Solo, k: nat)
    requires R.Step(s, z, c) == c
    ensures R.Steps(s, z, c, k) == c
    decreases k
  {
    if k > 0 {
      StuckStays(s, z, c, k - 1);
    }
  }

  lemma AliveOccupied(m: Machine, z: R.Limit, c: R.Solo)
    requires Alone(m, z, c)
    ensures Occupied(m.tasks) == |c.task.stack| && AllFrames(m.tasks) == multiset(c.task.stack)
  {
    hide AllFrames;
    assert m.tasks[..1] == [c.task];
    OnlyFirst(m.tasks);
  }

  lemma {:induction false} OnlyFirst(tasks: seq<Task>)
    requires |tasks| > 0 && forall k :: 1 <= k < |tasks| ==> tasks[k].stack == []
    ensures Occupied(tasks) == |tasks[0].stack| && AllFrames(tasks) == multiset(tasks[0].stack)
  {
    var less := tasks[..|tasks| - 1];
    if |tasks| == 1 {
      assert less == [];
    } else {
      OnlyFirst(less);
    }
  }

  /** The scheduler picks the lone task whenever it can run. */
  lemma PicksRoot(s: Setting, m: Machine, z: R.Limit, c: R.Solo, layout: seq<FrameKind>)
    requires Alone(m, z, c) && (c.task.state.Ready? || c.task.state.Returning?)
    ensures Iterate(s, m, layout) == Transition(s, Spend(m, 0), 0)
  {
    hide Transition, Scan;
    ScanFirst(m.tasks, m.cursor);
    assert Look(m.tasks, 0) == Run;
    assert forall k :: 1 <= k < |m.tasks| ==> Look(m.tasks, k) == Skip;
    assert m.tasks[0 := m.tasks[0]] == m.tasks;
  }

  /** A transition of a lone task neither forks nor leaves the states of a running task. */
  ghost predicate Simple(t: Task, l: Local) {
    && !l.Spawn? && l.task.cancelled == t.cancelled
    && (l.task.state.Ready? || l.task.state.Returning? || l.task.state.Waiting? || l.task.state.Done?)
  }

  lemma KindSimple(s: Setting, t: Task, kind: NodeKind, input: V, max: nat, room: int, ticket: nat)
    requires t.state.Ready? && !kind.Fork?
    ensures Simple(t, BeginKind(s, t, kind, input, max, room, ticket))
  {
    hide OpeningOf;
  }

  lemma PopSimple(s: Setting, t: Task, frame: FrameKind, outcome: Res, max: nat, room: int)
    requires t.state.Ready?
    ensures Simple(t, PopFrame(s, t, frame, outcome, max, room)) && !PopFrame(s, t, frame, outcome, max, room).Await?
  {
  }

  lemma StepSimple(s: Setting, z: R.Limit, c: R.Solo)
    requires Moving(s, c)
    ensures c.task.state.Ready? ==> Simple(c.task, Begin(s, c.task, z.max, R.Room(z, c.task), c.ticket))
    ensures c.task.state.Returning? ==>
      var l := Unwind(s, c.task, z.max, R.Room(z, c.task));
      Simple(c.task, l) && !l.Await?
  {
    hide BeginKind, PopFrame, Conclude;
    var t := c.task;
    if t.state.Ready? && s.image.Has(t.pc) && t.input.Some? {
      KindSimple(s, Armed(s, t), s.image.nodes[t.pc].kind, t.input.value, z.max, R.Room(z, t), c.ticket);
    } else if t.state.Returning? && t.stack != [] {
      var top := |t.stack| - 1;
      var kept := t.(state := Ready, input := Some(Kept(s.h, t)));
      PopSimple(s, kept.(stack := t.stack[..top]), t.stack[top], Carried(s.h, t), z.max, R.Room(z, t) + 1);
    }
  }

  /** One pass of the machine is one step of the lone task. */
  lemma TickSteps(s: Setting, m: Machine, z: R.Limit, c: R.Solo, layout: seq<FrameKind>)
    requires Alone(m, z, c) && Moving(s, c) && !c.task.state.Waiting?
    ensures Alone(Iterate(s, m, layout).m, z, R.Step(s, z, c)) && Same(m, Iterate(s, m, layout).m)
    ensures R.Step(s, z, c).asked == c.asked + Shown(s, m, Tick(layout)) && R.Step(s, z, c).replies == c.replies
  {
    hide Iterate, Occupied, AllFrames, Unwind, Begin;
    PicksRoot(s, m, z, c, layout);
    AliveOccupied(m, z, c);
    StepSimple(s, z, c);
    var n := Spend(m, 0);
    assert Room(n) == R.Room(z, c.task);
    if c.task.state.Ready? {
      SettleSteps(s, n, z, c, Begin(s, c.task, z.max, R.Room(z, c.task), c.ticket));
    } else {
      SettleSteps(s, n, z, c, Unwind(s, c.task, z.max, R.Room(z, c.task)));
    }
  }

  lemma SettleSteps(s: Setting, m: Machine, z: R.Limit, c: R.Solo, l: Local)
    requires Alone(m, z, c) && Simple(c.task, l) && (c.task.state.Ready? || (c.task.state.Returning? && !l.Await?))
    requires l == if c.task.state.Ready? then Begin(s, c.task, z.max, R.Room(z, c.task), c.ticket)
                  else Unwind(s, c.task, z.max, R.Room(z, c.task))
    ensures var turn := Settle(s, m, 0, l);
      && Alone(turn.m, z, R.Step(s, z, c)) && Same(m, turn.m) && R.Step(s, z, c).replies == c.replies
      && (l.Await? ==> turn.out.Some? && turn.out.value.Requested?)
      && (!l.Await? ==> turn.out.None?)
      && R.Step(s, z, c).asked == c.asked +
           (if l.Await? then
              var a := turn.out.value.request; [E.Question(a.port, a.input, a.context, a.position, a.cleanup)]
            else [])
  {
    hide Unwind, Begin;
  }

  lemma AnswerSimple(s: Setting, t: Task, event: HostEvent, max: nat, room: int)
    requires t.state.Waiting?
    ensures Simple(t, Answer(s, t, event, max, room))
  {
  }

  lemma RespondSteps(s: Setting, m: Machine, z: R.Limit, c: R.Solo)
    requires Alone(m, z, c) && Moving(s, c) && c.task.state.Waiting?
    ensures Alone(Deliver(s, m, 0, c.task.state.ticket, c.replies[0]).m, z, R.Step(s, z, c))
    ensures Same(m, Deliver(s, m, 0, c.task.state.ticket, c.replies[0]).m)
    ensures R.Step(s, z, c).asked == c.asked && R.Step(s, z, c).replies == c.replies[1..]
  {
    AliveOccupied(m, z, c);
    AnswerSimple(s, c.task, c.replies[0], z.max, R.Room(z, c.task));
    hide Answer;
  }

  /** A lone task on the way to an outcome is not stuck. */
  lemma OnTheWay(s: Setting, m: Machine, z: R.Limit, c: R.Solo, k: nat)
    requires Alone(m, z, c) && R.Steps(s, z, c, k).task.state.Done? && !c.task.state.Done?
    ensures Moving(s, c) && k > 0
  {
    if R.Step(s, z, c) == c {
      StuckStays(s, z, c, k);
    }
  }

  /** The move of a host that follows the script. */
  ghost predicate Drives(c: R.Solo, move: Move) {
    if c.task.state.Waiting? then c.replies != [] && move == Respond(0, c.task.state.ticket, c.replies[0])
    else move.Tick?
  }

  lemma MoveSteps(s: Setting, m: Machine, z: R.Limit, c: R.Solo, move: Move)
    requires Alone(m, z, c) && (Moving(s, c) || c.task.state.Done?) && Drives(c, move)
    ensures Alone(Apply(s, m, move).m, z, R.Step(s, z, c)) && Same(m, Apply(s, m, move).m)
    ensures R.Step(s, z, c).asked == c.asked + Shown(s, m, move)
    ensures R.Step(s, z, c).replies == if c.task.state.Waiting? then c.replies[1..] else c.replies
  {
    if c.task.state.Waiting? {
      RespondSteps(s, m, z, c);
    } else if !c.task.state.Done? {
      TickSteps(s, m, z, c, move.layout);
    }
    hide R.Begun, Unwind, Answer, Schedule, Deliver;
  }

  lemma AloneHas(m: Machine, z: R.Limit, c: R.Solo)
    requires Alone(m, z, c)
    ensures |m.tasks| > 0 && m.tasks[0] == c.task && IsLayout(m, c.task.stack)
  {
    AliveOccupied(m, z, c);
  }

  /** Every run driven by the script follows the lone task, step for step. */
  lemma {:induction false} Follows(
    s: Setting, z: R.Limit, c: R.Solo, states: seq<Machine>, moves: seq<Move>, k: nat)
    requires IsRun(s, states, moves) && Driven(states, moves, c.replies) && Alone(states[0], z, c)
    requires R.Steps(s, z, c, k).task.state.Done?
    ensures Alone(states[|moves|], z, R.Steps(s, z, c, |moves|)) && Same(states[0], states[|moves|])
    ensures c.asked + Trace(s, states, moves) == R.Steps(s, z, c, |moves|).asked
    decreases |moves|
  {
    hide R.Step, Alone, Apply, Shown;
    if moves != [] {
      var d := R.Step(s, z, c);
      var more := if k > 0 then k - 1 else 0;
      AloneHas(states[0], z, c);
      if !c.task.state.Done? {
        OnTheWay(s, states[0], z, c, k);
      } else {
        DoneStays(s, z, c, k);
      }
      MoveSteps(s, states[0], z, c, moves[0]);
      Follows(s, z, d, states[1..], moves[1..], more);
    }
  }

  lemma DoneStays(s: Setting, z: R.Limit, c: R.Solo, k: nat)
    requires c.task.state.Done?
    ensures R.Step(s, z, c) == c && R.Steps(s, z, c, k) == c
  {
    StuckStays(s, z, c, k);
  }

  /** A host can follow the script for as long as it likes. */
  lemma {:induction false} Drive(s: Setting, z: R.Limit, c: R.Solo, m: Machine, k: nat, n: nat)
    returns (states: seq<Machine>, moves: seq<Move>)
    requires Alone(m, z, c) && R.Steps(s, z, c, k).task.state.Done?
    ensures |moves| == n && IsRun(s, states, moves) && states[0] == m && Driven(states, moves, c.replies)
    decreases n
  {
    hide R.Step, Alone, Apply, IsLayout;
    AloneHas(m, z, c);
    if n == 0 {
      states, moves := [m], [];
    } else {
      if !c.task.state.Done? {
        OnTheWay(s, m, z, c, k);
      } else {
        DoneStays(s, z, c, k);
      }
      var move := if c.task.state.Waiting? then Respond(0, c.task.state.ticket, c.replies[0]) else Tick(c.task.stack);
      MoveSteps(s, m, z, c, move);
      states, moves := Drive(s, z, R.Step(s, z, c), Apply(s, m, move).m, if k > 0 then k - 1 else 0, n - 1);
      RunPrepend(s, m, move, states, moves);
      states, moves := [m] + states, [move] + moves;
      assert states[1..] == states[1..] && moves[1..] == moves[1..];
    }
  }

  lemma RunPrepend(s: Setting, m: Machine, move: Move, states: seq<Machine>, moves: seq<Move>)
    requires |m.tasks| > 0 && Legal(m, move) && IsRun(s, states, moves) && states[0] == Apply(s, m, move).m
    ensures IsRun(s, [m] + states, [move] + moves)
    ensures ([m] + states)[1..] == states && ([move] + moves)[1..] == moves
  {
  }

  // ----- the whole execution -----

  function Storage(l: Launch): R.Limit { R.Limit(l.limits.framesPerTask, l.capacity) }

  function Origin(s: Setting, l: Launch, replies: seq<HostEvent>): R.Solo
    requires Admits(s, l)
  {
    R.Solo(First(s, l).tasks[0], 0, replies, [])
  }

  /** The empty bindings and the context a program starts in. */
  function Outset(l: Launch): E.World { E.World(seq(l.limits.bindingsPerTask, _ => None), l.context, false) }

  /** The program has a meaning under the script, and the storage is enough for it. */
  ghost predicate Means(s: Setting, l: Launch, replies: seq<HostEvent>, fuel: nat, o: E.Out) {
    && Admits(s, l) && l.limits.maxSteps.None?
    && E.Eval(s, Outset(l), s.image.entry, l.input, replies, fuel) == Some(o)
    && o.peak <= l.limits.framesPerTask && o.peak <= l.capacity && |o.asked| <= U64_MAX
  }

  /** How the root stands once the program has ended. */
  ghost predicate Settled(s: Setting, l: Launch, m: Machine, o: E.Out) {
    && |m.tasks| == l.tasks > 0 && m.tasks[0].state == Done(E.Carry(s.h, o).result)
    && m.tasks[0].stack == [] && m.tasks[0].env == Outset(l).env && m.tasks[0].context == l.context
    && m.tasks[0].cleaning == 0
    && m.ticket == |o.asked|
    && forall k :: 1 <= k < |m.tasks| ==> m.tasks[k] == Idle(l.limits.bindingsPerTask)
  }

  /** The lone root reaches `Done` with the evaluator's result after some number of steps. */
  lemma SoloReaches(s: Setting, l: Launch, z: R.Limit, replies: seq<HostEvent>, fuel: nat, o: E.Out) returns (k: nat)
    requires Admits(s, l) && E.Eval(s, Outset(l), s.image.entry, l.input, replies, fuel) == Some(o)
    requires o.peak <= z.max && o.peak <= z.pool && |o.asked| <= U64_MAX
    ensures var c, e := Origin(s, l, replies), R.Steps(s, z, Origin(s, l, replies), k + 1);
      && !R.Steps(s, z, c, k).task.state.Done?
      && e.task == c.task.(state := Done(E.Carry(s.h, o).result), input := Some(E.Carry(s.h, o).control),
        pc := e.task.pc)
      && e.asked == o.asked && e.ticket == |o.asked|
  {
    hide E.Eval;
    var c := Origin(s, l, replies);
    assert c.task.env == Outset(l).env;
    var pc;
    k, pc := R.EvalLands(s, z, c, Outset(l), s.image.entry, l.input, fuel);
    var d := R.Landed(c, o, pc);
    R.OneStep(s, z, d);
    R.Compose(s, z, c, d, k, R.Step(s, z, d), 1);
    hide R.Steps;
    assert [] + o.asked == o.asked;
  }

  lemma OriginAlone(s: Setting, l: Launch, replies: seq<HostEvent>)
    requires Admits(s, l) && l.limits.maxSteps.None?
    ensures Alone(First(s, l), Storage(l), Origin(s, l, replies))
  {
  }

  /** A scripted host can drive the program to its end. */
  lemma ScriptedRunExists(s: Setting, l: Launch, replies: seq<HostEvent>, fuel: nat, o: E.Out)
    returns (states: seq<Machine>, moves: seq<Move>)
    requires Means(s, l, replies, fuel, o)
    ensures Launched(s, l, states, moves) && Driven(states, moves, replies) && Settled(s, l, states[|moves|], o)
    ensures Trace(s, states, moves) == o.asked
  {
    hide R.Step, R.Steps, E.Eval;
    var c, z := Origin(s, l, replies), Storage(l);
    var k := SoloReaches(s, l, z, replies, fuel, o);
    OriginAlone(s, l, replies);
    states, moves := Drive(s, z, c, First(s, l), k + 1, k + 1);
    hide Driven, Trace, First, Alone, IsRun;
    Follows(s, z, c, states, moves, k + 1);
    SettledAt(s, l, states[|moves|], z, c, R.Steps(s, z, c, k + 1), o);
    assert [] + Trace(s, states, moves) == Trace(s, states, moves);
  }

  lemma SettledAt(s: Setting, l: Launch, m: Machine, z: R.Limit, c: R.Solo, e: R.Solo, o: E.Out)
    requires Admits(s, l) && Alone(m, z, e) && Same(First(s, l), m) && c == Origin(s, l, c.replies)
    requires e.task == c.task.(state := Done(E.Carry(s.h, o).result), input := Some(E.Carry(s.h, o).control),
      pc := e.task.pc)
    requires e.ticket == |o.asked|
    ensures Settled(s, l, m, o)
  {
  }

  /** A lone task that gets done does so at one step and stays as it is. */
  lemma DoneFrom(s: Setting, z: R.Limit, c: R.Solo, k: nat, n: nat)
    requires !R.Steps(s, z, c, k).task.state.Done? && R.Steps(s, z, c, k + 1).task.state.Done?
    ensures n > k ==> R.Steps(s, z, c, n) == R.Steps(s, z, c, k + 1)
    ensures n <= k ==> !R.Steps(s, z, c, n).task.state.Done?
  {
    hide R.Step, R.Steps;
    if n > k {
      R.StepsAdd(s, z, c, k + 1, n - k - 1);
      DoneStays(s, z, R.Steps(s, z, c, k + 1), n - k - 1);
    } else if R.Steps(s, z, c, n).task.state.Done? {
      R.StepsAdd(s, z, c, n, k - n);
      DoneStays(s, z, R.Steps(s, z, c, n), k - n);
    }
  }

  /** Every run of a scripted host is done exactly from some move on, and then it holds the
      evaluator's result, has made exactly the evaluator's host calls, and has restored the
      stack, the context and the bindings. */
  lemma ScriptedRunEvaluates(
    s: Setting, l: Launch, replies: seq<HostEvent>, fuel: nat, o: E.Out, states: seq<Machine>, moves: seq<Move>)
    returns (k: nat)
    requires Means(s, l, replies, fuel, o)
    requires Launched(s, l, states, moves) && Driven(states, moves, replies)
    ensures |moves| <= k <==> !states[|moves|].tasks[0].state.Done?
    ensures |moves| > k ==> Settled(s, l, states[|moves|], o) && Trace(s, states, moves) == o.asked
  {
    hide R.Step, R.Steps, Driven, Trace, E.Eval, Alone, Settled, First, Apply;
    var c, z, n := Origin(s, l, replies), Storage(l), |moves|;
    k := SoloReaches(s, l, z, replies, fuel, o);
    OriginAlone(s, l, replies);
    DoneFrom(s, z, c, k, n);
    Follows(s, z, c, states, moves, k + 1);
    AloneHas(states[n], z, R.Steps(s, z, c, n));
    assert [] + Trace(s, states, moves) == Trace(s, states, moves);
    if n > k {
      SettledAt(s, l, states[n], z, c, R.Steps(s, z, c, n), o);
    }
  }
}
