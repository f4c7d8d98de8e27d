/** What is left behind when the root task is done. */
module Quiescence {
  import opened Program
  import opened Machine
  import opened Stacks
  import opened Forest
  import opened Runs

  /** In every state of every run the live tasks form a tree: a joining task has exactly two live
      branches that point back to it, every other live task but the root is such a branch, parents
      are strictly nearer the root, cleanup levels add up along the way, and a done task holds no
      continuation. */
  lemma LiveTasksFormTree(s: Setting, l: Launch, states: seq<Machine>, moves: seq<Move>, k: nat, i: nat)
    returns (tree: Tree)
    requires Launched(s, l, states, moves) && k <= |moves| && i < |states[k].tasks| && !states[k].tasks[i].state.Free?
    ensures var tasks := states[k].tasks;
      && (i in Ids(tree)) && (i == 0 <==> tasks[i].parent.None?) && (tasks[i].state.Done? ==> tasks[i].stack == [])
      && (i == 0 ==> tasks[i].cleaning == CleanedIn(tasks[i].stack))
      && (i != 0 ==>
            var p := tasks[i].parent.value;
            && p < |tasks| && !tasks[p].state.Free? && p in Ids(tree) && Level(tree, p) < Level(tree, i)
            && JoinOf(tasks[p].state).Some?
            && (JoinOf(tasks[p].state).value.left == i || JoinOf(tasks[p].state).value.right == i)
            && tasks[i].cleaning == tasks[p].cleaning + CleanedIn(tasks[i].stack))
      && (tasks[i].state.Joining? ==>
            var j := tasks[i].state.pair;
            && j.left < |tasks| && j.right < |tasks| && j.left != j.right
            && !tasks[j.left].state.Free? && !tasks[j.right].state.Free?
            && tasks[j.left].parent == Some(i) && tasks[j.right].parent == Some(i))
  {
    hide CleanedIn, Occupied, Apply, First;
    tree := StateAt(s, l, states, moves, k);
    var m := states[k];
    ShapeAt(m.tasks, tree, None, 0, i);
    if i != 0 {
      ParentLists(m.tasks, tree, None, 0, i);
    }
    if m.tasks[i].state.Joining? {
      ChildrenIn(m.tasks, tree, i);
    }
  }

  /** The row and context a root task started with are what its stack will restore. */
  ghost predicate RootBase(m: Machine, context: nat) {
    && |m.tasks| > 0
    && BaseEnv(m.tasks[0]) == Idle(m.limits.bindingsPerTask).env
    && BaseContext(m.tasks[0]) == context
  }

  lemma TransitionBase(s: Setting, m: Machine, tree: Tree, i: nat, context: nat)
    requires Inv(s, m, tree) && i in Ids(tree) && i < |m.tasks| && RootBase(m, context)
    ensures RootBase(Transition(s, m, i).m, context)
  {
    hide Inv, CleanedIn, Occupied, Restored, RestoredContext, Unwind, Begin, JoinStep, Settle, SpawnTasks, Idle;
    RootLive(s, m, tree);
    LiveTask(s, m, tree, i);
    var t := m.tasks[i];
    var max := m.limits.framesPerTask;
    match t.state
    case Returning(_) =>
      UnwindOk(s, t, max, Room(m));
      SettleBase(s, m, i, Unwind(s, t, max, Room(m)), context);
    case Joining(j) => JoinBase(s, m, tree, i, context);
    case Ready =>
      BeginOk(s, t, max, Room(m), m.ticket);
      SettleBase(s, m, i, Begin(s, t, max, Room(m), m.ticket), context);
    case _ =>
  }

  /** A transition that keeps its own task's promises keeps the root's. */
  lemma SettleBase(s: Setting, m: Machine, i: nat, l: Local, context: nat)
    requires RootBase(m, context) && i < |m.tasks| && !m.tasks[i].state.Free? && !m.tasks[0].state.Free?
    requires l.Spawn? ==> l.task == m.tasks[i].(input := l.task.input)
    requires !l.Spawn? ==> SameFrame(m.tasks[i], After(s.h, l))
    ensures RootBase(Settle(s, m, i, l).m, context)
  {
    hide CleanedIn, Restored, RestoredContext, FaultResult, SpawnTasks, Idle;
    if l.Spawn? {
      SpawnEffect(s, m, i, l.task, l.left, l.right, l.join, l.shared);
    }
  }

  lemma JoinBase(s: Setting, m: Machine, tree: Tree, i: nat, context: nat)
    requires Inv(s, m, tree) && i in Ids(tree) && i < |m.tasks| && RootBase(m, context) && m.tasks[i].state.Joining?
    ensures RootBase(JoinStep(s, m, i).m, context)
  {
    JoinEffect(s, m, tree, i);
    RootNoChild(m.tasks, tree, i);
    hide CleanedIn, Occupied, Restored, RestoredContext, JoinStep, Inv;
  }

  /** The root is nobody's child. */
  lemma RootNoChild(tasks: seq<Task>, tree: Tree, i: nat)
    requires Shape(tasks, tree, None, 0) && Distinct(tree) && i in Ids(tree) && i < |tasks| && tasks[i].state.Joining?
    ensures tasks[i].state.pair.left != tree.id && tasks[i].state.pair.right != tree.id
  {
    ChildrenIn(tasks, tree, i);
  }

  lemma TickBase(s: Setting, m: Machine, tree: Tree, layout: seq<FrameKind>, context: nat)
    requires Inv(s, m, tree) && RootBase(m, context)
    ensures RootBase(Iterate(s, m, layout).m, context)
  {
    hide Inv, Iterate, Transition, Acting, Idle, Restored, RestoredContext;
    RootLive(s, m, tree);
    ActingMoves(s, m, layout);
    ActingKeeps(s, m, tree);
    if Acting(s, m).Some? {
      TransitionBase(s, Acting(s, m).value.0, tree, Acting(s, m).value.1, context);
    }
  }

  lemma {:induction false} RestoredPadded(stack: seq<FrameKind>, env: seq<Option<V>>, pad: seq<Option<V>>)
    requires forall k :: 0 <= k < |stack| && stack[k].Unbind? ==> stack[k].slot < |env|
    ensures Restored(stack, env + pad) == Restored(stack, env) + pad
  {
    if stack != [] {
      var f := stack[|stack| - 1];
      if f.Unbind? {
        assert (env + pad)[f.slot := f.previous] == env[f.slot := f.previous] + pad;
        RestoredPadded(stack[..|stack| - 1], env[f.slot := f.previous], pad);
      } else {
        RestoredPadded(stack[..|stack| - 1], env, pad);
      }
    }
  }

  lemma GrowBase(s: Setting, m: Machine, tree: Tree, tasks: nat, capacity: nat, frames: nat, bindings: nat,
      context: nat)
    requires Inv(s, m, tree) && RootBase(m, context) && Legal(m, Resize(tasks, capacity, frames, bindings))
    ensures RootBase(Grow(m, tasks, capacity, frames, bindings), context)
  {
    var t := m.tasks[0];
    assert TaskOk(s.image, m.limits, t);
    var pad := seq(bindings - |t.env|, _ => None);
    forall k | 0 <= k < |t.stack| && t.stack[k].Unbind? ensures t.stack[k].slot < |t.env| {
      assert FrameOk(s.image, |t.env|, t.stack[k]);
    }
    RestoredPadded(t.stack, t.env, pad);
    assert Idle(m.limits.bindingsPerTask).env + pad == Idle(bindings).env;
  }

  lemma ApplyBase(s: Setting, m: Machine, tree: Tree, move: Move, context: nat)
    requires Inv(s, m, tree) && Legal(m, move) && RootBase(m, context)
    ensures RootBase(Apply(s, m, move).m, context)
  {
    match move
    case Tick(layout) => TickBase(s, m, tree, layout, context);
    case Respond(i, ticket, event) =>
      if Pending(m, i, ticket) {
        ShapeAt(m.tasks, tree, None, 0, i);
        hide CleanedIn, Occupied, Restored, RestoredContext;
        DeliverOk(s, m.tasks[i], event, m.limits.framesPerTask, Room(m));
      }
    case Abort =>
    case Resize(tasks, capacity, frames, bindings) => GrowBase(s, m, tree, tasks, capacity, frames, bindings, context);
  }

  lemma {:induction false} RunBase(s: Setting, states: seq<Machine>, moves: seq<Move>, tree: Tree, context: nat)
    returns (grown: Tree)
    requires IsRun(s, states, moves) && Inv(s, states[0], tree) && RootBase(states[0], context)
    ensures Inv(s, states[|moves|], grown) && RootBase(states[|moves|], context)
  {
    if moves == [] {
      grown := tree;
    } else {
      ApplyBase(s, states[0], tree, moves[0], context);
      var next := ApplyKeeps(s, states[0], tree, moves[0]);
      grown := RunBase(s, states[1..], moves[1..], next, context);
    }
  }

  /** Once the root of any run is done, every other slot is idle, no frame is held by
      anyone, every binding is empty again and the root acts in its original context. */
  lemma RootDoneIsQuiet(s: Setting, l: Launch, states: seq<Machine>, moves: seq<Move>)
    requires Launched(s, l, states, moves) && states[|moves|].tasks[0].state.Done?
    ensures var m := states[|moves|];
      var idle := Idle(m.limits.bindingsPerTask);
      && (forall i :: 1 <= i < |m.tasks| ==> m.tasks[i] == idle)
      && m.tasks[0].stack == [] && m.tasks[0].env == idle.env && m.tasks[0].context == l.context
      && Occupied(m.tasks) == 0 && AllFrames(m.tasks) == multiset{}
  {
    FirstInv(s, l);
    var tree := RunBase(s, states, moves, Solo(0), l.context);
    var m := states[|moves|];
    assert tree == Solo(0);
    NoFrames(m.tasks);
  }
}
