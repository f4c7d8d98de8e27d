/** Request tickets are issued once, in increasing order, and answered at most once. */
module Tickets {
  import opened Program
  import opened Machine
  import opened Stacks
  import opened Forest
  import opened Runs

  predicate Holds(m: Machine, i: nat, ticket: nat) {
    i < |m.tasks| && m.tasks[i].state.Waiting? && m.tasks[i].state.ticket == ticket
  }

  /** Live tickets were issued and no two tasks hold the same one. */
  ghost predicate TicketsOk(m: Machine) {
    && (forall i: nat, k: nat :: Holds(m, i, k) ==> k <= m.ticket)
    && (forall i: nat, j: nat, k: nat :: Holds(m, i, k) && Holds(m, j, k) ==> i == j)
  }

  /** What one call may do to live tickets: keep them, drop them, or issue the next one. */
  ghost predicate Issues(m: Machine, turn: Turn) {
    var n := turn.m;
    var issued := turn.out.Some? && turn.out.value.Requested?;
    && n.ticket == m.ticket + (if issued then 1 else 0)
    && (issued ==> turn.out.value.request.ticket == n.ticket && Holds(n, turn.out.value.request.task, n.ticket))
    && forall i: nat, k: nat :: Holds(n, i, k) ==>
         Holds(m, i, k) || (issued && turn.out.value.request.task == i && k == n.ticket)
  }

  lemma UnwindRuns(s: Setting, t: Task, max: nat, room: int)
    requires t.state.Returning?
    ensures !After(s.h, Unwind(s, t, max, room)).state.Waiting?
    ensures !Unwind(s, t, max, room).Await? && !Unwind(s, t, max, room).Spawn?
  {
  }

  lemma BeginRuns(s: Setting, t: Task, max: nat, room: int, ticket: nat)
    requires t.state.Ready?
    ensures var l := Begin(s, t, max, room, ticket);
      && (!l.Await? && !l.Spawn? ==> !After(s.h, l).state.Waiting?)
      && (l.Await? ==> l.task.state == Waiting(ticket + 1, t.pc))
      && (l.Spawn? ==> l.task.state.Ready?)
  {
  }

  lemma JoinIssues(s: Setting, m: Machine, tree: Tree, i: nat)
    requires Inv(s, m, tree) && i in Ids(tree) && i < |m.tasks| && m.tasks[i].state.Joining?
    ensures Issues(m, JoinStep(s, m, i))
  {
    JoinEffect(s, m, tree, i);
    var j := m.tasks[i].state.pair;
    if BothDone(m.tasks, j) {
      ConcludeRuns(s, Raced(m.tasks, j)[i], j.node, Merged(s.h, m.tasks, j));
    }
    hide JoinStep, Inv, Raced, Conclude;
  }

  lemma ConcludeRuns(s: Setting, t: Task, node: nat, r: Res)
    ensures Conclude(s, t, node, r).Next? ==> !Conclude(s, t, node, r).task.state.Waiting?
  {
  }

  lemma SettleIssues(s: Setting, m: Machine, i: nat, l: Local)
    requires i < |m.tasks| && !m.tasks[i].state.Free?
    requires !l.Await? && !l.Spawn? ==> !After(s.h, l).state.Waiting?
    requires l.Await? ==> l.task.state.Waiting? && l.task.state.ticket == m.ticket + 1
    requires l.Spawn? ==> l.task.state.Ready?
    ensures Issues(m, Settle(s, m, i, l))
  {
    hide FaultResult, SpawnTasks;
    if l.Spawn? {
      SpawnEffect(s, m, i, l.task, l.left, l.right, l.join, l.shared);
    }
  }

  lemma TransitionIssues(s: Setting, m: Machine, tree: Tree, i: nat)
    requires Inv(s, m, tree) && i in Ids(tree) && i < |m.tasks|
    ensures Issues(m, Transition(s, m, i))
  {
    hide Inv, Occupied, Unwind, Begin, JoinStep, Settle, Issues;
    LiveTask(s, m, tree, i);
    var t := m.tasks[i];
    var max := m.limits.framesPerTask;
    match t.state
    case Returning(_) =>
      UnwindRuns(s, t, max, Room(m));
      SettleIssues(s, m, i, Unwind(s, t, max, Room(m)));
    case Joining(_) => JoinIssues(s, m, tree, i);
    case Ready =>
      BeginRuns(s, t, max, Room(m), m.ticket);
      SettleIssues(s, m, i, Begin(s, t, max, Room(m), m.ticket));
    case _ => StillIssues(m);
  }

  lemma StillIssues(m: Machine)
    ensures Issues(m, Turn(m, None))
  {
  }

  /** Preparing a pass issues nothing and wakes nobody who was not waiting. */
  lemma ActingHolds(s: Setting, m: Machine)
    requires |m.tasks| > 0 && Acting(s, m).Some?
    ensures var c := Acting(s, m).value.0;
      c.ticket == m.ticket && forall i: nat, k: nat :: Holds(c, i, k) ==> Holds(m, i, k)
  {
    hide Scan, FaultResult;
  }

  lemma IdleIssues(s: Setting, m: Machine, layout: seq<FrameKind>)
    requires |m.tasks| > 0 && Acting(s, m).None?
    ensures Issues(m, Iterate(s, m, layout))
  {
    hide Scan, FaultResult, Transition, TerminalFault;
  }

  lemma TickIssues(s: Setting, m: Machine, tree: Tree, layout: seq<FrameKind>)
    requires Inv(s, m, tree)
    ensures Issues(m, Iterate(s, m, layout))
  {
    hide Inv, Iterate, Transition, Acting;
    RootLive(s, m, tree);
    ActingMoves(s, m, layout);
    ActingKeeps(s, m, tree);
    if Acting(s, m).None? {
      IdleIssues(s, m, layout);
    } else {
      ActingHolds(s, m);
      TransitionIssues(s, Acting(s, m).value.0, tree, Acting(s, m).value.1);
    }
  }

  /** The host's response is taken rather than refused. */
  predicate Accepted(s: Setting, m: Machine, move: Move)
    requires |m.tasks| > 0
  {
    move.Respond? && Deliver(s, m, move.task, move.ticket, move.event).refusal.None?
  }

  lemma ApplyIssues(s: Setting, m: Machine, tree: Tree, move: Move)
    requires Inv(s, m, tree) && Legal(m, move)
    ensures Issues(m, Apply(s, m, move))
    ensures Accepted(s, m, move) ==>
      Holds(m, move.task, move.ticket) && !Holds(Apply(s, m, move).m, move.task, move.ticket)
  {
    hide Inv, Iterate, Deliver, Grow;
    RootLive(s, m, tree);
    match move
    case Tick(layout) => TickIssues(s, m, tree, layout);
    case Respond(i, ticket, event) => DeliverHolds(s, m, tree, i, ticket, event);
    case Abort =>
    case Resize(tasks, capacity, frames, bindings) => GrowHolds(m, tasks, capacity, frames, bindings);
  }

  lemma DeliverHolds(s: Setting, m: Machine, tree: Tree, i: nat, ticket: nat, event: HostEvent)
    requires Inv(s, m, tree)
    ensures Issues(m, Turn(Deliver(s, m, i, ticket, event).m, None))
    ensures Deliver(s, m, i, ticket, event).refusal.None? ==>
      Holds(m, i, ticket) && !Holds(Deliver(s, m, i, ticket, event).m, i, ticket)
  {
    hide CleanedIn, Occupied, Restored, RestoredContext, Answer, Inv, Successor;
    RootLive(s, m, tree);
    if Pending(m, i, ticket) {
      WaiterLive(s, m, tree, i);
      LiveTask(s, m, tree, i);
      AnswerHolds(s, m.tasks[i], event, m.limits.framesPerTask, Room(m));
    }
  }

  /** A response leaves its task waiting for the same ticket exactly when it is refused. */
  lemma AnswerHolds(s: Setting, t: Task, event: HostEvent, max: nat, room: int)
    requires t.state.Waiting? && t.input.Some?
    ensures var l := Answer(s, t, event, max, room);
      && (l.task.state.Waiting? ==> l.task.state == t.state)
      && (l.Next? ==> !l.task.state.Waiting?) && (l.Next? || l.Trap?)
  {
  }

  lemma GrowHolds(m: Machine, tasks: nat, capacity: nat, frames: nat, bindings: nat)
    ensures Issues(m, Turn(if |m.tasks| <= tasks then Grow(m, tasks, capacity, frames, bindings) else m, None))
  {
    if |m.tasks| <= tasks {
      var g := Grow(m, tasks, capacity, frames, bindings);
      forall i: nat, k: nat | Holds(g, i, k) ensures Holds(m, i, k) {
        GrownTask(m, tasks, capacity, frames, bindings, i);
      }
    }
  }

  /** An issued ticket that no task holds any more. */
  ghost predicate Retired(m: Machine, ticket: nat) {
    ticket <= m.ticket && forall i: nat :: !Holds(m, i, ticket)
  }

  lemma {:induction false} RunTickets(s: Setting, states: seq<Machine>, moves: seq<Move>, tree: Tree, gone: set<nat>)
    requires IsRun(s, states, moves) && Inv(s, states[0], tree) && TicketsOk(states[0])
    requires forall k :: k in gone ==> Retired(states[0], k)
    ensures TicketsOk(states[|moves|]) && states[0].ticket <= states[|moves|].ticket
    ensures forall k :: k in gone ==> Retired(states[|moves|], k)
  {
    if moves != [] {
      ApplyIssues(s, states[0], tree, moves[0]);
      var next := ApplyKeeps(s, states[0], tree, moves[0]);
      hide Apply, Inv, Legal;
      RunTickets(s, states[1..], moves[1..], next, gone);
    }
  }

  lemma TicketsAt(s: Setting, l: Launch, states: seq<Machine>, moves: seq<Move>, j: nat, k: nat, gone: set<nat>)
    requires Launched(s, l, states, moves) && j <= k <= |moves|
    requires forall x :: x in gone ==> Retired(states[j], x)
    ensures TicketsOk(states[j]) && TicketsOk(states[k]) && states[j].ticket <= states[k].ticket
    ensures forall x :: x in gone ==> Retired(states[k], x)
  {
    FirstInv(s, l);
    FirstTickets(s, l);
    var tree := StateAt(s, l, states, moves, j);
    hide Inv, Apply, Legal, TicketsOk, IsRun, First, Retired;
    RunSlice(s, states, moves, 0, j);
    RunSlice(s, states, moves, j, k);
    RunTickets(s, states[0..j + 1], moves[0..j], Solo(0), {});
    RunTickets(s, states[j..k + 1], moves[j..k], tree, gone);
  }

  lemma FirstTickets(s: Setting, l: Launch)
    requires Admits(s, l)
    ensures TicketsOk(First(s, l))
  {
  }

  lemma IssuedAt(s: Setting, l: Launch, states: seq<Machine>, moves: seq<Move>, k: nat, request: Ask)
    requires Launched(s, l, states, moves) && k < |moves|
    requires Apply(s, states[k], moves[k]).out == Some(Requested(request))
    ensures request.ticket == states[k].ticket + 1 == states[k + 1].ticket
  {
    var tree := StateAt(s, l, states, moves, k);
    ApplyIssues(s, states[k], tree, moves[k]);
  }

  /** Tickets issued later in a run are larger. */
  lemma IssuedIncrease(
    s: Setting, l: Launch, states: seq<Machine>, moves: seq<Move>, j: nat, k: nat, first: Ask, second: Ask)
    requires Launched(s, l, states, moves) && j < k < |moves|
    requires Apply(s, states[j], moves[j]).out == Some(Requested(first))
    requires Apply(s, states[k], moves[k]).out == Some(Requested(second))
    ensures first.ticket < second.ticket
  {
    IssuedAt(s, l, states, moves, j, first);
    IssuedAt(s, l, states, moves, k, second);
    TicketsAt(s, l, states, moves, j + 1, k, {});
  }

  /** An accepted response retires its ticket. */
  lemma AcceptedRetires(s: Setting, l: Launch, states: seq<Machine>, moves: seq<Move>, k: nat)
    requires Launched(s, l, states, moves) && k < |moves| && Accepted(s, states[k], moves[k])
    ensures Holds(states[k], moves[k].task, moves[k].ticket) && Retired(states[k + 1], moves[k].ticket)
  {
    var tree := StateAt(s, l, states, moves, k);
    ApplyIssues(s, states[k], tree, moves[k]);
    TicketsAt(s, l, states, moves, k, k, {});
    hide Inv, Accepted, Legal;
  }

  /** No ticket is accepted twice in one run, whatever the host sends. */
  lemma AcceptedAtMostOnce(s: Setting, l: Launch, states: seq<Machine>, moves: seq<Move>, j: nat, k: nat)
    requires Launched(s, l, states, moves) && j < k < |moves|
    requires Accepted(s, states[j], moves[j]) && Accepted(s, states[k], moves[k])
    ensures moves[j].ticket != moves[k].ticket
  {
    AcceptedRetires(s, l, states, moves, j);
    AcceptedRetires(s, l, states, moves, k);
    TicketsAt(s, l, states, moves, j + 1, k, {moves[j].ticket});
  }

  /** A held ticket was issued earlier in the run to the task that holds it. */
  lemma {:induction false} HeldWasIssued(
    s: Setting, l: Launch, states: seq<Machine>, moves: seq<Move>, i: nat, ticket: nat, k: nat) returns (j: nat)
    requires Launched(s, l, states, moves) && k <= |moves| && Holds(states[k], i, ticket)
    ensures j < k
    ensures var out := Apply(s, states[j], moves[j]).out;
      out.Some? && out.value.Requested? && out.value.request.task == i && out.value.request.ticket == ticket
    decreases k
  {
    if k == 0 {
      assert false;
    } else {
      var tree := StateAt(s, l, states, moves, k - 1);
      ApplyIssues(s, states[k - 1], tree, moves[k - 1]);
      if Holds(states[k - 1], i, ticket) {
        j := HeldWasIssued(s, l, states, moves, i, ticket, k - 1);
      } else {
        j := k - 1;
      }
    }
  }

  /** A refused response leaves its task waiting under the same ticket, with its stack,
      bindings and context untouched; only the response's provenance may be recorded. */
  lemma RefusalLeavesTask(s: Setting, m: Machine, tree: Tree, i: nat, ticket: nat, event: HostEvent)
    requires Inv(s, m, tree) && Deliver(s, m, i, ticket, event).refusal.Some?
    ensures var n := Deliver(s, m, i, ticket, event).m;
      && (!Pending(m, i, ticket) ==> n == m)
      && (Pending(m, i, ticket) ==> n == SetTask(m, i, m.tasks[i].(input := n.tasks[i].input)))
  {
    if Pending(m, i, ticket) {
      ShapeAt(m.tasks, tree, None, 0, i);
      hide CleanedIn, Occupied, Restored, RestoredContext;
      DeliverOk(s, m.tasks[i], event, m.limits.framesPerTask, Room(m));
    }
  }
}
