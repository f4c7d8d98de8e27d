/** Cancellation is final, and quotas bound the work of a whole run. */
module Budget {
  import opened Program
  import opened Machine
  import opened Stacks
  import opened Forest
  import opened Runs
  import opened Quiescence

  // ----- quotas -----

  predicate QuotaOk(m: Machine) {
    && (m.limits.maxSteps.Some? ==> m.steps <= m.limits.maxSteps.value <= U64_MAX)
    && m.cleanupSteps <= m.limits.cleanupSteps
  }

  /** What a call may do to the counters: with a quota, count the transitions it performs. */
  predicate Counts(m: Machine, n: Machine, work: nat) {
    && (m.aborting ==> n.aborting)
    && n.limits.maxSteps == m.limits.maxSteps && n.limits.cleanupSteps == m.limits.cleanupSteps
    && (m.limits.maxSteps.Some? ==> n.steps + n.cleanupSteps == m.steps + m.cleanupSteps + work)
  }

  /** Transitions touch neither the counters nor the limits. */
  lemma TransitionCounts(s: Setting, m: Machine, i: nat)
    requires i < |m.tasks|
    ensures var n := Transition(s, m, i).m;
      n.steps == m.steps && n.cleanupSteps == m.cleanupSteps && n.limits == m.limits && n.aborting == m.aborting
  {
    hide Unwind, Begin, Conclude, Occupied, FaultResult, Raced, Merged, Idle, Child;
  }

  /** Preparing a transition counts it, within the quota or within the cleanup budget. */
  lemma ActingCounts(s: Setting, m: Machine)
    requires |m.tasks| > 0 && QuotaOk(m) && Acting(s, m).Some?
    ensures QuotaOk(Acting(s, m).value.0) && Counts(m, Acting(s, m).value.0, 1)
    ensures QuotaSpent(m) ==> Acting(s, m).value.0.aborting
  {
    hide Scan, Convert, MarkLive;
  }

  lemma TickQuota(s: Setting, m: Machine, layout: seq<FrameKind>)
    requires |m.tasks| > 0 && QuotaOk(m)
    ensures var n := Iterate(s, m, layout).m;
      QuotaOk(n) && Counts(m, n, if Acting(s, m).Some? then 1 else 0)
    ensures QuotaSpent(m) && !Terminal(m.tasks[0].state) ==> Iterate(s, m, layout).m.aborting
  {
    hide Iterate, Acting, Transition, TerminalFault, MarkLive, Convert;
    ActingMoves(s, m, layout);
    if Acting(s, m).Some? {
      ActingCounts(s, m);
      TransitionCounts(s, Acting(s, m).value.0, Acting(s, m).value.1);
    } else {
      var x := IdleIs(s, m, layout);
      QuotedRoot(m);
    }
  }

  lemma ApplyQuota(s: Setting, m: Machine, move: Move)
    requires |m.tasks| > 0 && QuotaOk(m)
    ensures var n := Apply(s, m, move).m;
      QuotaOk(n) && Counts(m, n, if move.Tick? && Acting(s, m).Some? then 1 else 0)
  {
    hide Iterate, Acting, Answer, Occupied;
    match move
    case Tick(layout) => TickQuota(s, m, layout);
    case Respond(_, _, _) =>
    case Abort =>
    case Resize(_, _, _, _) =>
  }

  /** Transitions performed by a run. */
  function Work(s: Setting, states: seq<Machine>, moves: seq<Move>): nat
    requires |states| == |moves| + 1 && forall k :: 0 <= k < |states| ==> |states[k].tasks| > 0
  {
    if moves == [] then 0
    else (if moves[0].Tick? && Acting(s, states[0]).Some? then 1 else 0) + Work(s, states[1..], moves[1..])
  }

  lemma {:induction false} RunQuota(s: Setting, states: seq<Machine>, moves: seq<Move>)
    requires IsRun(s, states, moves) && QuotaOk(states[0])
    ensures QuotaOk(states[|moves|]) && Counts(states[0], states[|moves|], Work(s, states, moves))
  {
    if moves != [] {
      ApplyQuota(s, states[0], moves[0]);
      hide Apply, Legal, Acting, QuotaOk;
      RunQuota(s, states[1..], moves[1..]);
    }
  }

  /** With a quota, no run performs more than `max_steps + cleanup_steps` transitions,
      however the host interleaves its calls. */
  lemma QuotaBoundsRun(s: Setting, l: Launch, states: seq<Machine>, moves: seq<Move>)
    requires Launched(s, l, states, moves) && l.limits.maxSteps.Some?
    ensures Work(s, states, moves) <= l.limits.maxSteps.value + l.limits.cleanupSteps
  {
    RunQuota(s, states, moves);
  }

  // ----- cancellation -----

  /** Once aborting, the root is cancelled and a terminal root has failed. */
  predicate AbortOk(m: Machine) {
    |m.tasks| > 0 && (m.aborting ==>
      m.tasks[0].cancelled && (Terminal(m.tasks[0].state) ==> m.tasks[0].state.outcome.Err?))
  }

  /** A cancelled task outside cleanup that reaches a transition is failing or joining. */
  predicate Converted(t: Task) {
    CancelsHere(t) ==> t.state.Joining? || (t.state.Returning? && t.state.outcome.Err?)
  }

  lemma ConvertConverts(h: Values, t: Task)
    requires KeepsErrors(h)
    ensures Converted(Convert(h, t)) && Convert(h, t).cancelled == t.cancelled
  {
  }

  lemma BeginEnds(s: Setting, t: Task, max: nat, room: int, ticket: nat)
    requires t.state.Ready?
    ensures !After(s.h, Begin(s, t, max, room, ticket)).state.Done?
  {
  }

  /** A returning task is done only once its stack is empty, with the result it carried. */
  lemma UnwindEnds(s: Setting, t: Task, max: nat, room: int)
    requires t.state.Returning?
    ensures Unwind(s, t, max, room).task.state.Done? ==>
      t.stack == [] && Unwind(s, t, max, room).task.state.outcome == Carried(s.h, t)
  {
  }

  /** Storing a task that is not done, or failed if it is a cancelled root, keeps the verdict. */
  lemma SettleAborts(s: Setting, m: Machine, i: nat, l: Local)
    requires AbortOk(m) && i < |m.tasks| && !Terminal(m.tasks[0].state) && !m.tasks[0].state.Free?
      && !m.tasks[i].state.Free?
    requires l.Spawn? ==> l.task == m.tasks[i].(input := l.task.input)
    requires !l.Spawn? ==> var u := After(s.h, l);
      && u.cancelled == m.tasks[i].cancelled && !u.state.Halted?
      && (i == 0 && m.aborting && u.state.Done? ==> u.state.outcome.Err?)
    ensures AbortOk(Settle(s, m, i, l).m) && Settle(s, m, i, l).m.aborting == m.aborting
  {
    hide SpawnTasks, FaultResult;
    if l.Spawn? {
      SpawnEffect(s, m, i, l.task, l.left, l.right, l.join, l.shared);
    }
  }

  /** The root is outside any cleanup once its stack is empty. */
  lemma RootCleaning(s: Setting, m: Machine, tree: Tree)
    requires Inv(s, m, tree)
    ensures m.tasks[0].stack == [] ==> m.tasks[0].cleaning == 0
  {
    hide Occupied;
  }

  lemma TransitionAborts(s: Setting, m: Machine, tree: Tree, i: nat)
    requires Inv(s, m, tree) && i in Ids(tree) && i < |m.tasks| && KeepsErrors(s.h)
    requires AbortOk(m) && Converted(m.tasks[i]) && !Terminal(m.tasks[0].state)
    ensures AbortOk(Transition(s, m, i).m) && Transition(s, m, i).m.aborting == m.aborting
  {
    hide Inv, Occupied, CleanedIn, Restored, RestoredContext, Unwind, Begin, JoinStep, Settle;
    RootLive(s, m, tree);
    LiveTask(s, m, tree, i);
    RootCleaning(s, m, tree);
    var t := m.tasks[i];
    var max := m.limits.framesPerTask;
    match t.state
    case Returning(_) =>
      UnwindOk(s, t, max, Room(m));
      UnwindEnds(s, t, max, Room(m));
      SettleAborts(s, m, i, Unwind(s, t, max, Room(m)));
    case Joining(j) => JoinAborts(s, m, tree, i);
    case Ready =>
      BeginOk(s, t, max, Room(m), m.ticket);
      BeginEnds(s, t, max, Room(m), m.ticket);
      SettleAborts(s, m, i, Begin(s, t, max, Room(m), m.ticket));
    case _ =>
  }

  lemma JoinAborts(s: Setting, m: Machine, tree: Tree, i: nat)
    requires Inv(s, m, tree) && i in Ids(tree)
    requires i < |m.tasks| && m.tasks[i].state.Joining? && AbortOk(m) && !Terminal(m.tasks[0].state)
    ensures AbortOk(JoinStep(s, m, i).m) && JoinStep(s, m, i).m.aborting == m.aborting
  {
    RootNoChild(m.tasks, tree, i);
    JoinEffect(s, m, tree, i);
    var j := m.tasks[i].state.pair;
    RaceMarks(m.tasks, j);
    if BothDone(m.tasks, j) {
      ConcludeEnds(s, Raced(m.tasks, j)[i], j.node, Merged(s.h, m.tasks, j));
    }
    hide JoinStep, Inv, Raced, Conclude, Restored, RestoredContext, CleanedIn;
  }

  /** Cancellation marks are never taken back. */
  lemma RaceMarks(tasks: seq<Task>, j: JoinState)
    ensures forall k :: 0 <= k < |tasks| && tasks[k].cancelled ==> Raced(tasks, j)[k].cancelled
  {
  }

  lemma ConcludeEnds(s: Setting, t: Task, node: nat, r: Res)
    ensures Conclude(s, t, node, r).Next? ==> !Terminal(Conclude(s, t, node, r).task.state)
  {
  }

  lemma QuotedAborts(m: Machine)
    requires AbortOk(m) && !Terminal(m.tasks[0].state) && !m.tasks[0].state.Free?
    ensures AbortOk(Quoted(m))
  {
  }

  lemma ActingAborts(s: Setting, m: Machine)
    requires AbortOk(m) && KeepsErrors(s.h) && Acting(s, m).Some? && !m.tasks[0].state.Free?
    ensures var (c, x) := Acting(s, m).value;
      AbortOk(c) && Converted(c.tasks[x]) && !Terminal(c.tasks[0].state)
  {
    hide Scan, Convert, Quoted;
    QuotedRoot(m);
    QuotedAborts(m);
    var n, x := Quoted(m), Acting(s, m).value.1;
    ConvertConverts(s.h, n.tasks[x]);
    ConvertRuns(s.h, n.tasks, x);
  }

  lemma HaltAborts(s: Setting, m: Machine, x: nat, layout: seq<FrameKind>)
    requires AbortOk(m) && KeepsErrors(s.h) && x < |m.tasks|
    ensures AbortOk(Halt(s, SetTask(m, x, Convert(s.h, m.tasks[x])), layout).m)
  {
    hide RetainControl, FaultResult;
  }

  lemma TickAborts(s: Setting, m: Machine, tree: Tree, layout: seq<FrameKind>)
    requires Inv(s, m, tree) && KeepsErrors(s.h) && AbortOk(m)
    ensures AbortOk(Iterate(s, m, layout).m)
  {
    hide Inv, Iterate, Acting, Transition, Halt, Quoted;
    RootLive(s, m, tree);
    ActingMoves(s, m, layout);
    ActingKeeps(s, m, tree);
    if Acting(s, m).Some? {
      ActingAborts(s, m);
      TransitionAborts(s, Acting(s, m).value.0, tree, Acting(s, m).value.1);
    } else {
      var x := IdleIs(s, m, layout);
      if !Terminal(m.tasks[0].state) {
        QuotedAborts(m);
        if x.Some? {
          HaltAborts(s, Quoted(m), x.value, layout);
        }
      }
    }
  }

  lemma ApplyAborts(s: Setting, m: Machine, tree: Tree, move: Move)
    requires Inv(s, m, tree) && Legal(m, move) && KeepsErrors(s.h) && AbortOk(m)
    ensures AbortOk(Apply(s, m, move).m)
  {
    hide Inv, Iterate, Answer, Occupied;
    RootLive(s, m, tree);
    match move
    case Tick(layout) => TickAborts(s, m, tree, layout);
    case Respond(i, ticket, event) =>
      if Pending(m, i, ticket) {
        DeliverUnfinished(s, m.tasks[i], event, m.limits.framesPerTask, Room(m));
      }
    case Abort =>
    case Resize(_, _, _, _) =>
  }

  /** A response never finishes a task by itself, and never clears its mark. */
  lemma DeliverUnfinished(s: Setting, t: Task, event: HostEvent, max: nat, room: int)
    requires t.state.Waiting?
    ensures var u := Answer(s, t, event, max, room).task; !Terminal(u.state) && u.cancelled == t.cancelled
  {
  }

  lemma {:induction false} RunAborts(s: Setting, states: seq<Machine>, moves: seq<Move>, tree: Tree)
    requires IsRun(s, states, moves) && Inv(s, states[0], tree) && KeepsErrors(s.h) && AbortOk(states[0])
    ensures AbortOk(states[|moves|])
  {
    if moves != [] {
      ApplyAborts(s, states[0], tree, moves[0]);
      var next := ApplyKeeps(s, states[0], tree, moves[0]);
      hide Apply, Inv, Legal, AbortOk;
      RunAborts(s, states[1..], moves[1..], next);
    }
  }

  /** A run whose root was cancelled while unfinished, by the host or by its quota, can
      only end in an error. */
  lemma CancelledEndsInError(s: Setting, l: Launch, states: seq<Machine>, moves: seq<Move>, k: nat)
    requires Launched(s, l, states, moves) && KeepsErrors(s.h)
    requires k < |moves| && !Terminal(states[k].tasks[0].state)
    requires moves[k].Abort? || (moves[k].Tick? && QuotaSpent(states[k]))
    requires Terminal(states[|moves|].tasks[0].state)
    ensures states[|moves|].tasks[0].state.outcome.Err?
  {
    hide Inv, Apply, Legal, First, IsRun, QuotaOk, Work, QuotaSpent;
    FirstInv(s, l);
    FirstFresh(s, l);
    StateAfter(s, states, moves, k);
    RunAborts(s, states, moves, Solo(0));
    RunSlice(s, states, moves, 0, k);
    RunSlice(s, states, moves, k + 1, |moves|);
    RunQuota(s, states[0..k + 1], moves[0..k]);
    StartsAborting(s, states[k], moves[k]);
    ApplyQuota(s, states[k], moves[k]);
    RunQuota(s, states[k + 1..|moves| + 1], moves[k + 1..|moves|]);
  }

  lemma FirstFresh(s: Setting, l: Launch)
    requires Admits(s, l)
    ensures AbortOk(First(s, l)) && QuotaOk(First(s, l))
  {
  }

  lemma StateAfter(s: Setting, states: seq<Machine>, moves: seq<Move>, k: nat)
    requires IsRun(s, states, moves) && k < |moves|
    ensures |states| == |moves| + 1 && |states[k].tasks| > 0 && states[k + 1] == Apply(s, states[k], moves[k]).m
  {
    hide Apply, Legal;
  }

  lemma StartsAborting(s: Setting, m: Machine, move: Move)
    requires |m.tasks| > 0 && QuotaOk(m) && !Terminal(m.tasks[0].state)
    requires move.Abort? || (move.Tick? && QuotaSpent(m))
    ensures Apply(s, m, move).m.aborting
  {
    if move.Tick? {
      TickQuota(s, m, move.layout);
      hide Iterate;
    }
  }
}
