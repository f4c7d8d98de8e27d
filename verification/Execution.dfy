/** The machine in place: task slots, one shared frame pool and one flat binding matrix,
    updated step by step. Models crates/xolotl-core/src/machine.rs; every method is proved
    against the machine on values, so every property of runs holds of it. */
module Executions {
  import opened Program
  import opened Machine
  import opened Stacks
  import opened Forest
  import opened Runs
  import opened Arena
  import opened Placement

  class Execution {
    const tasks: array<Slot>
    const frames: FramePool
    const bindings: array<Option<V>>
    var limits: Limits
    var steps: nat
    var cleanupSteps: nat
    var ticket: nat
    var cursor: nat
    var aborting: bool
    var imageId: nat

    /** The machine this storage holds, the tree of its live tasks, and the image it runs. */
    ghost var model: Machine
    ghost var tree: Tree
    ghost var home: Image

    /** The storage holds the machine. */
    ghost predicate Rep()
      reads `model, `limits, `steps, `cleanupSteps, `ticket, `cursor, `aborting, `imageId
      reads tasks, frames, frames.slots, bindings
    {
      && tasks as object != bindings && tasks as object != frames.slots && bindings as object != frames.slots
      && frames.Valid()
      && Holds(tasks[..], frames.plan.paths, frames.stacks, bindings[..], limits.bindingsPerTask, model.tasks)
      && model == Machine(model.tasks, frames.slots.Length, limits, steps, cleanupSteps, ticket, cursor, aborting,
        imageId)
    }

    /** Take over storage that already holds a machine. */
    constructor FromView(
      meta: Suspended, tasks: array<Slot>, pool: FramePool, bindings: array<Option<V>>,
      ghost model: Machine, ghost tree: Tree, ghost home: Image)
      ensures this.tasks == tasks && this.frames == pool && this.bindings == bindings
      ensures limits == meta.limits && steps == meta.steps && cleanupSteps == meta.cleanupSteps && ticket == meta.ticket
      ensures cursor == meta.cursor && aborting == meta.aborting && imageId == meta.imageId
      ensures this.model == model && this.tree == tree && this.home == home
    {
      this.tasks, this.frames, this.bindings := tasks, pool, bindings;
      limits, steps, cleanupSteps, ticket := meta.limits, meta.steps, meta.cleanupSteps, meta.ticket;
      cursor, aborting, imageId := meta.cursor, meta.aborting, meta.imageId;
      this.model, this.tree, this.home := model, tree, home;
    }

    /** What the storage shows of each task. */
    lemma Facts()
      requires Rep()
      ensures tasks.Length == |model.tasks| == |frames.plan.paths| == |frames.stacks|
      ensures forall i :: 0 <= i < tasks.Length ==>
        && tasks[i] == Compact(model.tasks[i], Head(frames.plan.paths[i])) && frames.stacks[i] == model.tasks[i].stack
        && |model.tasks[i].env| == limits.bindingsPerTask && |frames.plan.paths[i]| == |model.tasks[i].stack|
    {
      frames.Balance();
      HoldsAt(tasks[..], frames.plan.paths, frames.stacks, bindings[..], limits.bindingsPerTask, model.tasks);
    }

    lemma Counters()
      requires Rep()
      ensures model == Machine(model.tasks, frames.slots.Length, limits, steps, cleanupSteps, ticket, cursor, aborting,
        imageId)
    {
    }

    lemma RoomIs()
      requires Rep()
      ensures frames.Available() == Room(model)
    {
      frames.Balance();
      OccupiedTotal(model.tasks, frames.plan.paths);
    }

    method Write(i: nat, slot: Slot)
      requires Rep() && i < tasks.Length && slot.stack == tasks[i].stack
      modifies tasks, this`model
      ensures Rep() && |model.tasks| == |old(model.tasks)| == tasks.Length
      ensures model == SetTask(old(model), i, Lifted(slot, old(model.tasks[i])))
    {
      WriteHolds(tasks[..], frames.plan.paths, frames.stacks, bindings[..], limits.bindingsPerTask, model.tasks, i,
        slot);
      ghost var was := tasks[..];
      tasks[i] := slot;
      assert tasks[..] == was[i := slot];
      model := SetTask(model, i, Lifted(slot, model.tasks[i]));
    }

    method PushOn(i: nat, kind: FrameKind) returns (ok: bool)
      requires Rep() && i < tasks.Length && !kind.Vacant?
      modifies tasks, frames, frames.slots, this`model
      ensures Rep() && |model.tasks| == |old(model.tasks)| == tasks.Length
      ensures ok <==> Fits(old(model.tasks[i]), 1, limits.framesPerTask, Room(old(model)))
      ensures model == if ok then SetTask(old(model), i, Push(old(model.tasks[i]), kind)) else old(model)
      ensures frames.plan == Lengthened(old(frames.plan), i, |model.tasks[i].stack|)
    {
      hide Holds, Sound, Occupied;
      Facts();
      RoomIs();
      ghost var slots, paths, stacks := tasks[..], frames.plan.paths, frames.stacks;
      var out;
      ok, out := frames.Push(i, tasks[i].stack, kind, limits.framesPerTask);
      if ok {
        RestackHolds(slots, paths, stacks, bindings[..], limits.bindingsPerTask, model.tasks, i,
                     paths[i] + [out.top], stacks[i] + [kind]);
        tasks[i] := tasks[i].(stack := out);
        assert tasks[..] == slots[i := slots[i].(stack := out)];
        model := SetTask(model, i, Push(model.tasks[i], kind));
      }
    }

    method CheckOn(i: nat, n: nat) returns (ok: bool)
      requires Rep() && i < tasks.Length
      ensures i < |model.tasks| && (ok <==> Fits(model.tasks[i], n, limits.framesPerTask, Room(model)))
    {
      hide Holds, Sound, Occupied;
      Facts();
      RoomIs();
      ok := frames.Check(tasks[i].stack, n, limits.framesPerTask);
    }

    method PopFrom(i: nat) returns (kind: Option<FrameKind>)
      requires Rep() && i < tasks.Length
      modifies tasks, frames, frames.slots, this`model
      ensures Rep() && |model.tasks| == |old(model.tasks)| == tasks.Length
      ensures var t := old(model.tasks[i]);
        if t.stack == [] then kind.None? && model == old(model)
        else
          && kind == Some(t.stack[|t.stack| - 1])
          && model == SetTask(old(model), i, t.(stack := t.stack[..|t.stack| - 1]))
      ensures frames.plan == Shortened(old(frames.plan), i)
    {
      hide Holds, Sound, Occupied;
      Facts();
      ghost var slots, paths, stacks := tasks[..], frames.plan.paths, frames.stacks;
      var out;
      kind, out := frames.Pop(i, tasks[i].stack);
      if kind.Some? {
        ghost var d := |stacks[i]| - 1;
        RestackHolds(slots, paths, stacks, bindings[..], limits.bindingsPerTask, model.tasks, i, paths[i][..d],
          stacks[i][..d]);
        tasks[i] := tasks[i].(stack := out);
        assert tasks[..] == slots[i := slots[i].(stack := out)];
        model := SetTask(model, i, model.tasks[i].(stack := stacks[i][..d]));
      } else {
        assert tasks[i].stack == out && tasks[..][i := tasks[i].(stack := out)] == tasks[..];
      }
    }

    method Store(i: nat, j: nat, x: Option<V>)
      requires Rep() && i < tasks.Length && j < limits.bindingsPerTask
      modifies bindings, this`model
      ensures Rep() && |model.tasks| == |old(model.tasks)| == tasks.Length
        && |old(model.tasks[i]).env| == limits.bindingsPerTask
      ensures model == SetTask(old(model), i, old(model.tasks[i]).(env := old(model.tasks[i]).env[j := x]))
    {
      hide Holds, Sound, Occupied, Cell;
      Facts();
      BindHolds(tasks[..], frames.plan.paths, frames.stacks, bindings[..], limits.bindingsPerTask, model.tasks, i, j,
        x);
      ghost var cells := bindings[..];
      bindings[Cell(i, j, limits.bindingsPerTask)] := x;
      assert bindings[..] == cells[Cell(i, j, limits.bindingsPerTask) := x];
      model := SetTask(model, i, model.tasks[i].(env := model.tasks[i].env[j := x]));
    }

    method Fetch(i: nat, j: nat) returns (x: Option<V>)
      requires Rep() && i < tasks.Length && j < limits.bindingsPerTask
      ensures i < |model.tasks| && |model.tasks[i].env| == limits.bindingsPerTask && x == model.tasks[i].env[j]
    {
      Facts();
      assert RowHolds(bindings[..], limits.bindingsPerTask, i, model.tasks[i].env);
      hide Cell;
      x := bindings[Cell(i, j, limits.bindingsPerTask)];
    }

    // ----- one task -----

    method Begun(i: nat, pc: nat, input: V)
      requires Rep() && i < tasks.Length
      modifies tasks, this`model
      ensures Rep() && |model.tasks| == |old(model.tasks)| == tasks.Length
      ensures model == SetTask(old(model), i, Start(old(model.tasks[i]), pc, input))
    {
      hide Rep;
      Facts();
      Write(i, tasks[i].(pc := pc, input := Some(input), state := Ready));
    }

    method Returns(i: nat, r: Res)
      requires Rep() && i < tasks.Length
      modifies tasks, this`model
      ensures Rep() && |model.tasks| == |old(model.tasks)| == tasks.Length
      ensures model == SetTask(old(model), i, Return(old(model.tasks[i]), r))
    {
      hide Rep;
      Facts();
      Write(i, tasks[i].(state := Returning(r)));
    }

    method Finishing(s: Setting, i: nat, node: nat, result: Res) returns (fault: Option<Fault>)
      requires Rep() && i < tasks.Length
      modifies tasks, this`model
      ensures Rep() && |model.tasks| == |old(model.tasks)| == tasks.Length
      ensures Did(old(model), i, Conclude(s, old(model.tasks[i]), node, result), fault, model)
    {
      hide Rep;
      Facts();
      if !s.image.Has(node) {
        assert model.tasks[i := model.tasks[i]] == model.tasks;
        return Some(InvalidNode);
      }
      var r := if tasks[i].input.Some? then s.h.influenceResult(result, tasks[i].input.value) else result;
      if r.Ok? && s.image.nodes[node].next.Some? {
        Begun(i, s.image.nodes[node].next.value, r.value);
      } else {
        Returns(i, r);
      }
      return None;
    }

    /** Push one frame and start an entry under it. */
    method Enter(i: nat, f: FrameKind, pc: nat, input: V) returns (fault: Option<Fault>)
      requires Rep() && i < tasks.Length && !f.Vacant?
      modifies tasks, frames, frames.slots, this`model
      ensures Rep() && |model.tasks| == |old(model.tasks)| == tasks.Length
      ensures Did(old(model), i, Enter1(old(model.tasks[i]), f, pc, input, limits.framesPerTask, Room(old(model))),
        fault, model)
      ensures frames.plan == Lengthened(old(frames.plan), i, |model.tasks[i].stack|)
    {
      hide Rep, Occupied;
      Facts();
      ghost var t := model.tasks[i];
      var ok := PushOn(i, f);
      if !ok {
        assert model.tasks[i := t] == model.tasks;
        return Some(Frames);
      }
      Begun(i, pc, input);
      SetTwice(old(model), i, Push(t, f), Start(Push(t, f), pc, input));
      return None;
    }

    method EnterTwo(i: nat, f: FrameKind, g: FrameKind, pc: nat, input: V) returns (fault: Option<Fault>)
      requires Rep() && i < tasks.Length && !f.Vacant? && !g.Vacant?
      modifies tasks, frames, frames.slots, this`model
      ensures Rep() && |model.tasks| == |old(model.tasks)| == tasks.Length
      ensures Did(old(model), i, Enter2(old(model.tasks[i]), f, g, pc, input, limits.framesPerTask, Room(old(model))),
        fault, model)
      ensures frames.plan == Lengthened(old(frames.plan), i, |model.tasks[i].stack|)
    {
      hide Rep, Occupied, Lengthened;
      Facts();
      ghost var t := model.tasks[i];
      var ok := PushOn(i, f);
      if !ok {
        assert model.tasks[i := t] == model.tasks;
        return Some(Frames);
      }
      RoomSet(old(model), i, Push(t, f));
      ghost var l := Enter1(Push(t, f), g, pc, input, limits.framesPerTask, Room(model));
      fault := Enter(i, g, pc, input);
      SetTwice(old(model), i, Push(t, f), l.task);
      LengthenedTwice(old(frames.plan), i, |t.stack| + 1, |model.tasks[i].stack|);
    }

    /** A returning task hands its outcome to the frame on top of its stack. */
    method Unwinding(s: Setting, i: nat) returns (fault: Option<Fault>)
      requires Rep() && i < tasks.Length && |model.tasks| == tasks.Length && tasks[i].state.Returning?
      requires StackOk(s.image, limits.bindingsPerTask, model.tasks[i].stack)
      modifies tasks, frames, frames.slots, bindings, this`model
      ensures Rep() && |model.tasks| == |old(model.tasks)| == tasks.Length
      ensures old(model.tasks[i]).state.Returning?
      ensures Did(old(model), i, Unwind(s, old(model.tasks[i]), limits.framesPerTask, Room(old(model))), fault, model)
      ensures frames.plan == Replanned(old(frames.plan), i, true, |model.tasks[i].stack|)
    {
      hide Rep, Occupied, PopFrame, FrameOk, Lengthened, Shortened;
      Facts();
      ghost var m, t := model, model.tasks[i];
      var slot := tasks[i];
      var outcome := if slot.input.Some? then s.h.influenceResult(slot.state.outcome, slot.input.value)
        else slot.state.outcome;
      var control := s.h.retainResult(outcome);
      var kept := if slot.input.Some? then s.h.influence(control, slot.input.value) else control;
      Write(i, slot.(state := Ready, input := Some(kept)));
      ghost var u := model.tasks[i];
      assert u == t.(state := Ready, input := Some(Kept(s.h, t)));
      var frame := PopFrom(i);
      if frame.None? {
        Facts();
        Write(i, tasks[i].(state := Done(outcome)));
        SetTwice(m, i, u, u.(state := Done(outcome)));
        Facts();
        LengthenedSame(frames.plan, i, 0);
        return None;
      }
      ghost var below := u.(stack := t.stack[..|t.stack| - 1]);
      SetTwice(m, i, u, below);
      RoomSet(m, i, below);
      ghost var l := PopFrame(s, below, frame.value, outcome, limits.framesPerTask, Room(model));
      fault := Popped(s, i, frame.value, outcome);
      SetTwice(m, i, below, l.task);
    }

    /** What each kind of frame does with the outcome handed to it. */
    method Popped(s: Setting, i: nat, frame: FrameKind, outcome: Res) returns (fault: Option<Fault>)
      requires Rep() && i < tasks.Length && |model.tasks| == tasks.Length
        && FrameOk(s.image, limits.bindingsPerTask, frame)
      modifies tasks, frames, frames.slots, bindings, this`model
      ensures Rep() && |model.tasks| == |old(model.tasks)| == tasks.Length
      ensures Did(old(model), i, PopFrame(s, old(model.tasks[i]), frame, outcome, limits.framesPerTask,
        Room(old(model))), fault, model)
      ensures frames.plan == Lengthened(old(frames.plan), i, |model.tasks[i].stack|)
    {
      hide Rep, Occupied, Conclude;
      Facts();
      ghost var m, t := model, model.tasks[i];
      fault := None;
      match frame {
        case Finish(node) => fault := Finishing(s, i, node, outcome);
        case Continuation(node, _) => fault := Finishing(s, i, node, outcome);
        case ThenFrame(after) =>
          if outcome.Ok? {
            Begun(i, after, outcome.value);
          } else {
            Returns(i, outcome);
          }
        case CatchFrame(recover) =>
          if outcome.Err? && (!tasks[i].cancelled || tasks[i].cleaning > 0) {
            var value := s.h.errorValue(outcome.error);
            Begun(i, recover, if tasks[i].input.Some? then s.h.influence(value, tasks[i].input.value) else value);
          } else {
            Returns(i, outcome);
          }
        case FinallyFrame(cleanup, input) => fault := Cleaning(i, cleanup, input, outcome);
        case Cleaned(original) =>
          var control := s.h.retainResult(original);
          var result := if original.Err? then original else if outcome.Err? then outcome else original;
          var slot := tasks[i];
          Write(i, slot.(cleaning := if slot.cleaning > 0 then slot.cleaning - 1 else 0,
                         state := Returning(s.h.influenceResult(result, control))));
        case Context(context) => Write(i, tasks[i].(context := context, state := Returning(outcome)));
        case Choose(yes, no, input) =>
          if outcome.Err? {
            Returns(i, outcome);
          } else {
            match s.h.truth(outcome.value)
            case Ok(b) => Begun(i, if b then yes else no, s.h.influence(input, outcome.value));
            case Err(e) => Returns(i, Err(e));
          }
        case Bind(slot, body) =>
          if outcome.Err? {
            Returns(i, outcome);
          } else {
            fault := Binding(i, slot, body, outcome.value);
          }
        case Unbind(slot, previous) =>
          Store(i, slot, previous);
          Returns(i, outcome);
          SetTwice(m, i, t.(env := t.env[slot := previous]), Return(t.(env := t.env[slot := previous]), outcome));
        case Condition(_, _, _, _) => fault := Looping(s, i, frame, outcome);
        case Iteration(_, _, _) => fault := Looping(s, i, frame, outcome);
      }
      Facts();
    }

    /** The two frames of a loop. */
    method Looping(s: Setting, i: nat, frame: FrameKind, outcome: Res) returns (fault: Option<Fault>)
      requires Rep() && i < tasks.Length && |model.tasks| == tasks.Length && (frame.Condition? || frame.Iteration?)
      modifies tasks, frames, frames.slots, this`model
      ensures Rep() && |model.tasks| == |old(model.tasks)| == tasks.Length
      ensures Did(old(model), i, PopFrame(s, old(model.tasks[i]), frame, outcome, limits.framesPerTask,
        Room(old(model))), fault, model)
      ensures frames.plan == Lengthened(old(frames.plan), i, |model.tasks[i].stack|)
    {
      hide Rep, Occupied;
      Facts();
      fault := None;
      if outcome.Err? {
        Returns(i, outcome);
      } else if frame.Iteration? {
        fault := Enter(i, Condition(frame.condition, frame.body, frame.left, outcome.value), frame.condition,
          outcome.value);
      } else {
        match s.h.truth(outcome.value)
        case Err(e) => Returns(i, Err(e));
        case Ok(b) =>
          if !b {
            Returns(i, Ok(s.h.influence(frame.value, outcome.value)));
          } else if frame.left > 0 {
            fault := Enter(i, Iteration(frame.condition, frame.body, frame.left - 1), frame.body,
              s.h.influence(frame.value, outcome.value));
          } else {
            Returns(i, Err(s.h.error(Iterations)));
          }
      }
      Facts();
    }

    method Cleaning(i: nat, cleanup: nat, input: V, outcome: Res) returns (fault: Option<Fault>)
      requires Rep() && i < tasks.Length
      modifies tasks, frames, frames.slots, this`model
      ensures Rep() && |model.tasks| == |old(model.tasks)| == tasks.Length
      ensures var t := old(model.tasks[i]);
        Did(old(model), i,
            if !Fits(t, 1, limits.framesPerTask, Room(old(model))) then Trap(t, Frames)
            else Next(Start(Push(t, Cleaned(outcome)).(cleaning := t.cleaning + 1), cleanup, input)), fault, model)
      ensures frames.plan == Lengthened(old(frames.plan), i, |model.tasks[i].stack|)
    {
      hide Rep, Occupied;
      Facts();
      ghost var m, t := model, model.tasks[i];
      var ok := PushOn(i, Cleaned(outcome));
      if !ok {
        assert model.tasks[i := t] == model.tasks;
        return Some(Frames);
      }
      Facts();
      Write(i, tasks[i].(cleaning := tasks[i].cleaning + 1));
      Begun(i, cleanup, input);
      ghost var u := Push(t, Cleaned(outcome));
      ghost var v := u.(cleaning := t.cleaning + 1);
      SetTwice(m, i, u, v);
      SetTwice(m, i, v, Start(v, cleanup, input));
      return None;
    }

    method Binding(i: nat, slot: nat, body: nat, value: V) returns (fault: Option<Fault>)
      requires Rep() && i < tasks.Length
      modifies tasks, frames, frames.slots, bindings, this`model
      ensures Rep() && |model.tasks| == |old(model.tasks)| == tasks.Length
      ensures var t := old(model.tasks[i]);
        Did(old(model), i,
            if slot >= |t.env| then Trap(t, InvalidBinding)
            else if !Fits(t, 1, limits.framesPerTask, Room(old(model))) then Trap(t, Frames)
            else Next(Start(Push(t, Unbind(slot, t.env[slot])).(env := t.env[slot := Some(value)]), body, value)),
            fault, model)
      ensures frames.plan == Lengthened(old(frames.plan), i, |model.tasks[i].stack|)
    {
      hide Rep, Occupied;
      Facts();
      ghost var m, t := model, model.tasks[i];
      if slot >= limits.bindingsPerTask {
        assert model.tasks[i := t] == model.tasks;
        return Some(InvalidBinding);
      }
      var ok := CheckOn(i, 1);
      if !ok {
        assert model.tasks[i := t] == model.tasks;
        return Some(Frames);
      }
      var previous := Fetch(i, slot);
      Store(i, slot, None);
      RoomSet(m, i, model.tasks[i]);
      ok := PushOn(i, Unbind(slot, previous));
      assert ok;
      Store(i, slot, Some(value));
      Begun(i, body, value);
      ghost var u := t.(env := t.env[slot := None]);
      ghost var v := Push(u, Unbind(slot, previous));
      ghost var w := v.(env := t.env[slot := Some(value)]);
      assert u.env[slot := Some(value)] == w.env;
      SetTwice(m, i, u, v);
      SetTwice(m, i, v, w);
      SetTwice(m, i, w, Start(w, body, value));
      return None;
    }

    // ----- starting an instruction -----

    method FindFree(from: nat) returns (r: Option<nat>)
      requires Rep() && from <= tasks.Length
      ensures r == FirstFree(model.tasks, from)
    {
      hide Rep;
      Facts();
      for k := from to tasks.Length
        invariant FirstFree(model.tasks, from) == FirstFree(model.tasks, k)
      {
        if tasks[k].state.Free? {
          return Some(k);
        }
      }
      return None;
    }

    /** Copy the binding row of task `i` to `child`. */
    method CopyRow(i: nat, child: nat)
      requires Rep() && i < tasks.Length && child < tasks.Length && i != child
      modifies bindings, this`model
      ensures Rep() && |model.tasks| == |old(model.tasks)| == tasks.Length
      ensures model == SetTask(old(model), child, old(model.tasks[child]).(env := old(model.tasks[i]).env))
    {
      hide Rep;
      Facts();
      hide Patched;
      ghost var m, c, env := model, model.tasks[child], model.tasks[i].env;
      var w := limits.bindingsPerTask;
      PatchEnds(env, c.env);
      SetSame(m, child);
      for j := 0 to w
        invariant Rep() && |c.env| == |env| == w == limits.bindingsPerTask
        invariant model == SetTask(m, child, c.(env := Patched(env, c.env, j)))
      {
        var x := Fetch(i, j);
        Store(child, j, x);
        PatchStep(env, c.env, j);
        SetTwice(m, child, c.(env := Patched(env, c.env, j)), c.(env := Patched(env, c.env, j + 1)));
      }
    }

    /** Make `child` a branch of task `i`. */
    method Adopt(i: nat, child: nat)
      requires Rep() && i < tasks.Length && child < tasks.Length && i != child
      modifies tasks, bindings, this`model
      ensures Rep() && |model.tasks| == |old(model.tasks)| == tasks.Length
      ensures var t := old(model.tasks[i]);
        model == SetTask(old(model), child, old(model.tasks[child]).(
          parent := Some(i), context := t.context, cleaning := t.cleaning, env := t.env))
    {
      hide Rep;
      Facts();
      ghost var m, c, t := model, model.tasks[child], model.tasks[i];
      Write(child, tasks[child].(parent := Some(i), context := tasks[i].context, cleaning := tasks[i].cleaning));
      CopyRow(i, child);
      ghost var d := c.(parent := Some(i), context := t.context, cleaning := t.cleaning);
      SetTwice(m, child, d, d.(env := t.env));
    }

    method Forking(s: Setting, i: nat, left: nat, right: nat, join: Join, input: V) returns (fault: Option<Fault>)
      requires Rep() && i < tasks.Length && |model.tasks| == tasks.Length && !tasks[i].state.Free?
      modifies tasks, bindings, this`model
      ensures Rep() && |model.tasks| == |old(model.tasks)| == tasks.Length
      ensures Stepped(s, i, Settle(s, old(model), i, Spawn(old(model.tasks[i]), left, right, join, input)), model, None,
        fault)
    {
      hide Rep, FirstFree;
      Facts();
      ghost var m, t := model, model.tasks[i];
      var a := FindFree(0);
      if a.None? {
        return Some(Tasks);
      }
      var b := FindFree(a.value + 1);
      if b.None? {
        return Some(Tasks);
      }
      Branching(i, a.value, b.value, left, right, join, input);
      return None;
    }

    /** Start both branches of a fork in two free slots. */
    method Branching(i: nat, a: nat, b: nat, left: nat, right: nat, join: Join, input: V)
      requires Rep() && i < tasks.Length && a < tasks.Length && b < tasks.Length && i != a && i != b && a != b
      modifies tasks, bindings, this`model
      ensures Rep() && |model.tasks| == |old(model.tasks)| == tasks.Length
      ensures model == Forked(old(model), i, old(model.tasks[i]), a, b, left, right, join, input)
    {
      hide Rep;
      Facts();
      ghost var m, t := model, model.tasks[i];
      Begun(a, left, input);
      Begun(b, right, input);
      Adopt(i, a);
      Adopt(i, b);
      Facts();
      assert model.tasks[i] == t;
      Write(i, tasks[i].(state := Joining(JoinState(a, b, join, tasks[i].pc))));
      assert model.tasks == Forked(m, i, t, a, b, left, right, join, input).tasks;
    }

    method IssueTicket()
      requires Rep()
      modifies this`model, this`ticket
      ensures Rep() && ticket == old(ticket) + 1 && model == old(model).(ticket := old(model).ticket + 1)
      ensures ticket == model.ticket
    {
      ticket := ticket + 1;
      model := model.(ticket := ticket);
    }

    method Asking(s: Setting, i: nat, port: nat, input: V) returns (out: Option<Advance>, fault: Option<Fault>)
      requires Rep() && i < tasks.Length && |model.tasks| == tasks.Length && s.image.Has(tasks[i].pc)
      modifies tasks, this`model, this`ticket
      ensures Rep() && |model.tasks| == |old(model.tasks)| == tasks.Length
      ensures Stepped(s, i, Settle(s, old(model), i, Ticketed(s, old(model.tasks[i]), port, input, old(model).ticket)),
        model, out, fault)
    {
      hide Rep;
      Facts();
      Counters();
      ghost var m, t := model, model.tasks[i];
      assert m.tasks[i := t] == m.tasks;
      if port >= s.image.imports {
        return None, Some(InvalidImport);
      }
      if ticket >= U64_MAX {
        return None, Some(SequenceExhausted);
      }
      IssueTicket();
      Write(i, tasks[i].(state := Waiting(ticket, tasks[i].pc)));
      Facts();
      var slot := tasks[i];
      out := Some(Requested(Ask(i, ticket, port, input, slot.context, s.image.nodes[slot.pc].position,
        slot.cleaning > 0)));
      return out, None;
    }

    /** Carry out one instruction; its control has already been stored as the task's input. */
    method Starting(s: Setting, i: nat, kind: NodeKind, input: V) returns (out: Option<Advance>, fault: Option<Fault>)
      requires Rep() && i < tasks.Length && |model.tasks| == tasks.Length && tasks[i].state.Ready?
        && s.image.Has(tasks[i].pc)
      modifies tasks, frames, frames.slots, bindings, this`model, this`ticket
      ensures Rep() && |model.tasks| == |old(model.tasks)| == tasks.Length
      ensures Stepped(s, i,
        Settle(s, old(model), i, BeginKind(s, old(model.tasks[i]), kind, input, limits.framesPerTask, Room(old(model)),
          old(model).ticket)),
        model, out, fault)
      ensures frames.plan == Lengthened(old(frames.plan), i, |model.tasks[i].stack|)
    {
      hide Rep, Occupied, Conclude, Settle, Ticketed;
      Facts();
      ghost var m, t := model, model.tasks[i];
      ghost var l := BeginKind(s, t, kind, input, limits.framesPerTask, Room(m), m.ticket);
      var pc := tasks[i].pc;
      out := None;
      match kind {
        case Request(port) =>
          out, fault := Asking(s, i, port, input);
          Facts();
          return;
        case Scope(port, _) =>
          out, fault := Asking(s, i, port, input);
          Facts();
          return;
        case Fork(left, right, join) =>
          fault := Forking(s, i, left, right, join, input);
          Facts();
          return;
        case Literal(c) => fault := Finishing(s, i, pc, Ok(s.h.influence(c, input)));
        case Input => fault := Finishing(s, i, pc, Ok(input));
        case Load(slot) => fault := Loading(s, i, slot, input);
        case Fail(e) => fault := Finishing(s, i, pc, Err(e));
        case If(yes, no) =>
          match s.h.truth(input) {
            case Ok(b) => fault := Enter(i, Finish(pc), if b then yes else no, input);
            case Err(e) => fault := Finishing(s, i, pc, Err(e));
          }
        case Call(entry) => fault := Enter(i, Finish(pc), entry, input);
        case Then(first, after) => fault := EnterTwo(i, Finish(pc), ThenFrame(after), first, input);
        case Catch(body, recover) => fault := EnterTwo(i, Finish(pc), CatchFrame(recover), body, input);
        case Finally(body, cleanup) => fault := EnterTwo(i, Finish(pc), FinallyFrame(cleanup, input), body, input);
        case Branch(c, yes, no) => fault := EnterTwo(i, Finish(pc), Choose(yes, no, input), c, input);
        case Let(slot, bound, body) => fault := EnterTwo(i, Finish(pc), Bind(slot, body), bound, input);
        case While(c, body, max) => fault := EnterTwo(i, Finish(pc), Condition(c, body, max, input), c, input);
      }
      DidSteps(s, m, i, l, fault, model);
      Facts();
    }

    method Loading(s: Setting, i: nat, slot: nat, input: V) returns (fault: Option<Fault>)
      requires Rep() && i < tasks.Length && |model.tasks| == tasks.Length
      modifies tasks, this`model
      ensures Rep() && |model.tasks| == |old(model.tasks)| == tasks.Length
      ensures var t := old(model.tasks[i]);
        Did(old(model), i,
            if slot >= |t.env| then Trap(t, InvalidBinding)
            else if t.env[slot].None? then Trap(t, MissingBinding)
            else Conclude(s, t, t.pc, Ok(s.h.influence(t.env[slot].value, input))), fault, model)
    {
      hide Rep, Conclude;
      Facts();
      assert model.tasks[i := model.tasks[i]] == model.tasks;
      if slot >= limits.bindingsPerTask {
        return Some(InvalidBinding);
      }
      var x := Fetch(i, slot);
      if x.None? {
        return Some(MissingBinding);
      }
      fault := Finishing(s, i, tasks[i].pc, Ok(s.h.influence(x.value, input)));
    }

    /** Start the instruction task `i` stands at. */
    method Beginning(s: Setting, i: nat) returns (out: Option<Advance>, fault: Option<Fault>)
      requires Rep() && i < tasks.Length && |model.tasks| == tasks.Length && tasks[i].state.Ready?
      modifies tasks, frames, frames.slots, bindings, this`model, this`ticket
      ensures Rep() && |model.tasks| == |old(model.tasks)| == tasks.Length
      ensures Stepped(s, i, Settle(s, old(model), i,
        Begin(s, old(model.tasks[i]), limits.framesPerTask, Room(old(model)), old(model).ticket)),
                      model, out, fault)
      ensures frames.plan == Lengthened(old(frames.plan), i, |model.tasks[i].stack|)
    {
      hide Rep, Occupied, BeginKind;
      Facts();
      ghost var m, t := model, model.tasks[i];
      var pc := tasks[i].pc;
      if !s.image.Has(pc) {
        return None, Some(InvalidNode);
      }
      if tasks[i].input.None? {
        return None, Some(Type);
      }
      var kind, input := s.image.nodes[pc].kind, tasks[i].input.value;
      var retained := if kind.Request? || kind.Scope? then input else s.h.retainControl(input);
      Write(i, tasks[i].(input := Some(retained)));
      ghost var u := Armed(s, t);
      RoomSet(m, i, u);
      Facts();
      ghost var l := BeginKind(s, u, kind, input, limits.framesPerTask, Room(m), m.ticket);
      out, fault := Starting(s, i, kind, input);
      SettleSet(s, m, i, u, l);
    }

    // ----- joins and cancellation -----

    /** Whether `root` is an ancestor of `candidate`, found by following parents. */
    method Descends(candidate: nat, root: nat, ghost tree: Tree, ghost before: seq<Task>) returns (found: bool)
      requires Rep() && candidate < tasks.Length && |before| == tasks.Length
      requires forall k :: 0 <= k < tasks.Length ==> tasks[k].parent == before[k].parent
      requires Shape(before, tree, None, 0) && Distinct(tree)
        && (candidate !in Ids(tree) ==> before[candidate].parent.None?)
      requires tree.id == 0
      ensures found == Under(before, candidate, root, |before|)
    {
      hide Rep, Shape;
      if candidate in Ids(tree) {
        LevelBelow(before, tree, candidate);
        UnderLevel(before, tree, candidate, root, |before|);
        ParentIn(before, tree, candidate);
      }
      var parent := tasks[candidate].parent;
      found := false;
      while parent.Some?
        invariant parent.Some? ==> parent.value in Ids(tree) && parent.value < tasks.Length
        invariant Under(before, candidate, root, |before|) ==
          (parent.Some? && (parent.value == root || Under(before, parent.value, root, Level(tree, parent.value))))
        decreases if parent.Some? then Level(tree, parent.value) + 1 else 0
      {
        if parent.value == root {
          return true;
        }
        ParentIn(before, tree, parent.value);
        parent := tasks[parent.value].parent;
      }
    }

    method CancelSubtree(s: Setting, root: nat)
      requires Rep() && Inv(s, model, tree) && root < tasks.Length
      modifies tasks, this`model
      ensures Rep() && |model.tasks| == |old(model.tasks)| == tasks.Length
      ensures model == old(model).(tasks := CancelTree(old(model.tasks), root))
    {
      hide Rep, Shape, CleanedIn, Occupied, Under, Marked, CancelTree;
      Facts();
      ghost var m := model;
      Write(root, tasks[root].(cancelled := true));
      MarkedRoot(m.tasks, root);
      for k := 0 to tasks.Length
        invariant Rep() && model == m.(tasks := model.tasks) && Marked(m.tasks, root, k, model.tasks)
      {
        Facts();
        MarkedParents(m.tasks, root, k, model.tasks);
        MarkedStep(m.tasks, root, k, model.tasks);
        SetSame(model, k);
        var found := Descends(k, root, tree, m.tasks);
        if found {
          Write(k, tasks[k].(cancelled := true));
        }
      }
      MarkedAll(m.tasks, root, model.tasks);
    }

    method Drain(i: nat)
      requires Rep() && i < tasks.Length
      modifies tasks, frames, frames.slots, this`model
      ensures Rep() && |model.tasks| == |old(model.tasks)| == tasks.Length
      ensures model == SetTask(old(model), i, old(model.tasks[i]).(stack := []))
      ensures old(model.tasks[i]).stack == [] ==> frames.plan == old(frames.plan)
    {
      hide Rep;
      Facts();
      ghost var m, t := model, model.tasks[i];
      assert m.tasks[i := t] == m.tasks;
      var frame := PopFrom(i);
      while frame.Some?
        invariant Rep() && |model.tasks| == tasks.Length
        invariant model == SetTask(m, i, t.(stack := model.tasks[i].stack))
        invariant frame.None? ==> model.tasks[i].stack == []
        invariant t.stack == [] ==> frame.None? && frames.plan == old(frames.plan)
        decreases |model.tasks[i].stack| + if frame.Some? then 1 else 0
      {
        ghost var was := model.tasks[i];
        frame := PopFrom(i);
        SetTwice(m, i, was, model.tasks[i]);
      }
    }

    method ClearRow(i: nat)
      requires Rep() && i < tasks.Length
      modifies bindings, this`model
      ensures Rep() && |model.tasks| == |old(model.tasks)| == tasks.Length
      ensures model == SetTask(old(model), i, old(model.tasks[i]).(env := seq(limits.bindingsPerTask, _ => None)))
    {
      hide Rep;
      Facts();
      hide Patched;
      ghost var m, u, none := model, model.tasks[i], seq<Option<V>>(limits.bindingsPerTask, _ => None);
      PatchEnds(none, u.env);
      SetSame(m, i);
      for j := 0 to limits.bindingsPerTask
        invariant Rep() && |model.tasks| == tasks.Length && |u.env| == |none| == limits.bindingsPerTask
        invariant model == SetTask(m, i, u.(env := Patched(none, u.env, j)))
      {
        Store(i, j, None);
        PatchStep(none, u.env, j);
        SetTwice(m, i, u.(env := Patched(none, u.env, j)), u.(env := Patched(none, u.env, j + 1)));
      }
    }

    /** Empty a task's stack and bindings and give its slot back. */
    method Release(i: nat)
      requires Rep() && i < tasks.Length
      modifies tasks, frames, frames.slots, bindings, this`model
      ensures Rep() && |model.tasks| == |old(model.tasks)| == tasks.Length
      ensures model == SetTask(old(model), i, Idle(limits.bindingsPerTask))
      ensures old(model.tasks[i]).stack == [] ==> frames.plan == old(frames.plan)
    {
      hide Rep;
      Facts();
      ghost var m, t := model, model.tasks[i];
      Drain(i);
      ClearRow(i);
      Facts();
      Write(i, DEFAULT);
      ghost var none := seq<Option<V>>(limits.bindingsPerTask, _ => None);
      SetTwice(m, i, t.(stack := []), t.(stack := [], env := none));
      SetTwice(m, i, t.(stack := [], env := none), Idle(limits.bindingsPerTask));
    }

    /** Free two finished branches and conclude their parent with the combined result. */
    method Merging(s: Setting, i: nat, j: JoinState) returns (fault: Option<Fault>)
      requires Rep() && |model.tasks| == tasks.Length && i < tasks.Length && j.left < tasks.Length
        && j.right < tasks.Length
      requires i != j.left && i != j.right && j.left != j.right
      requires model.tasks[j.left].state.Done? && model.tasks[j.right].state.Done?
      modifies tasks, frames, frames.slots, bindings, this`model
      ensures Rep() && |model.tasks| == |old(model.tasks)| == tasks.Length
      ensures var m, idle := old(model), Idle(limits.bindingsPerTask);
        var x, y := m.tasks[j.left], m.tasks[j.right];
        Did(m.(tasks := m.tasks[j.left := idle][j.right := idle]), i,
            Conclude(s, m.tasks[i], j.node, JoinResult(s.h, j.join, x.state.outcome, y.state.outcome, x.cancelled)),
              fault, model)
      ensures old(model.tasks[j.left]).stack == [] && old(model.tasks[j.right]).stack == [] ==>
        frames.plan == old(frames.plan)
    {
      hide Rep, Conclude;
      Facts();
      ghost var m := model;
      var x, y := tasks[j.left].state.outcome, tasks[j.right].state.outcome;
      var control := s.h.influence(s.h.retainResult(x), s.h.retainResult(y));
      var chosen;
      match j.join {
        case All => chosen := if x.Ok? && y.Ok? then s.h.pair(x.value, y.value) else if x.Err? then x else y;
        case Race => chosen := if tasks[j.left].cancelled then y else x;
      }
      var result := s.h.influenceResult(chosen, control);
      Release(j.left);
      Release(j.right);
      assert model.tasks[i] == m.tasks[i];
      fault := Finishing(s, i, j.node, result);
    }

    /** A join cancels the loser of a race, or frees two finished branches and concludes. */
    method JoinOnce(s: Setting, i: nat) returns (fault: Option<Fault>)
      requires Rep() && Inv(s, model, tree) && i < tasks.Length && |model.tasks| == tasks.Length
      requires model.tasks[i].state.Joining? && i in Ids(tree)
      modifies tasks, frames, frames.slots, bindings, this`model
      ensures Rep() && |model.tasks| == |old(model.tasks)| == tasks.Length
      ensures Stepped(s, i, JoinStep(s, old(model), i), model, None, fault)
      ensures frames.plan == old(frames.plan)
    {
      hide Rep, Inv, Shape, CleanedIn, Occupied, CancelTree, Conclude, Settle, Idle, Merged, JoinResult;
      Facts();
      Counters();
      ghost var m := model;
      JoinChildren(s, m, tree, i);
      var j := tasks[i].state.pair;
      var a, b := tasks[j.left].state.Done?, tasks[j.right].state.Done?;
      if j.join.Race? && (a || b) {
        CancelSubtree(s, if a then j.right else j.left);
      }
      assert model == m.(tasks := Raced(m.tasks, j));
      if !(a && b) {
        return None;
      }
      MergedIs(s.h, m.tasks, j);
      RacedFlags(m.tasks, j);
      ghost var idle := Idle(limits.bindingsPerTask);
      ghost var n := m.(tasks := model.tasks[j.left := idle][j.right := idle]);
      ghost var l := Conclude(s, model.tasks[i], j.node, Merged(s.h, m.tasks, j));
      fault := Merging(s, i, j);
      DidSteps(s, n, i, l, fault, model);
    }

    /** One transition of task `i`, up to the fault it raises. */
    method Transitioning(s: Setting, i: nat) returns (out: Option<Advance>, fault: Option<Fault>)
      requires Rep() && Inv(s, model, tree) && i < tasks.Length && i in Ids(tree)
      modifies tasks, frames, frames.slots, bindings, this`model, this`ticket
      ensures Rep() && |model.tasks| == |old(model.tasks)| == tasks.Length
      ensures Stepped(s, i, Transition(s, old(model), i), model, out, fault)
      ensures frames.plan == Replanned(old(frames.plan), i, old(model.tasks[i]).state.Returning?,
        |model.tasks[i].stack|)
    {
      hide Rep, Shape, CleanedIn, Occupied, Settle, Unwind, Begin, JoinStep, FrameOk;
      Facts();
      Counters();
      assert TaskOk(s.image, model.limits, model.tasks[i]);
      ghost var m := model;
      match tasks[i].state {
        case Returning(_) =>
          ghost var l := Unwind(s, m.tasks[i], limits.framesPerTask, Room(m));
          fault := Unwinding(s, i);
          out := None;
          DidSteps(s, m, i, l, fault, model);
        case Joining(_) =>
          fault := JoinOnce(s, i);
          out := None;
        case Ready => out, fault := Beginning(s, i);
        case _ => out, fault := None, None;
      }
      Facts();
    }

    /** A fault raised by a transition becomes its task's result. */
    method Faulting(s: Setting, i: nat, fault: Fault)
      requires Rep() && i < tasks.Length
      modifies tasks, this`model
      ensures Rep() && |model.tasks| == |old(model.tasks)| == tasks.Length
      ensures model == Trapped(s, old(model), i, old(model.tasks[i]), fault)
    {
      hide Rep;
      Facts();
      var slot := tasks[i];
      var error: Res := Err(s.h.error(fault));
      var result := if slot.input.Some? then s.h.influenceResult(error, slot.input.value) else error;
      if slot.state.Returning? || slot.state.Done? {
        result := s.h.influenceResult(result, s.h.retainResult(slot.state.outcome));
      }
      Returns(i, result);
    }

    // ----- the scheduler -----

    /** Request structured cancellation. */
    method CancelAll()
      requires Rep() && tasks.Length > 0
      modifies tasks, this`model, this`aborting
      ensures Rep() && |model.tasks| == |old(model.tasks)| == tasks.Length
      ensures model == Cancel(old(model))
    {
      Facts();
      if Terminal(tasks[0].state) {
        return;
      }
      aborting := true;
      model := model.(aborting := true);
      assert Rep();
      Marking();
    }

    method Marking()
      requires Rep()
      modifies tasks, this`model
      ensures Rep() && |model.tasks| == |old(model.tasks)| == tasks.Length
      ensures model == old(model).(tasks := MarkLive(old(model.tasks)))
    {
      hide Rep;
      Facts();
      ghost var m := model;
      for k := 0 to tasks.Length
        invariant Rep() && |model.tasks| == |m.tasks| && model == m.(tasks := model.tasks)
        invariant forall j :: 0 <= j < |m.tasks| ==>
          model.tasks[j] == if j < k then MarkLive(m.tasks)[j] else m.tasks[j]
      {
        Facts();
        if !(tasks[k].state.Free? || tasks[k].state.Done? || tasks[k].state.Halted?) {
          Write(k, tasks[k].(cancelled := true));
        }
      }
      assert model.tasks == MarkLive(m.tasks);
    }

    /** Whether the scheduler stops at slot `i`. */
    method Stops(i: nat) returns (stop: bool)
      requires Rep() && i < tasks.Length && |model.tasks| == tasks.Length
      requires tasks[i].state.Joining? ==>
        tasks[i].state.pair.left < tasks.Length && tasks[i].state.pair.right < tasks.Length
      ensures stop <==> Look(model.tasks, i) != Skip
    {
      hide Rep;
      Facts();
      var slot := tasks[i];
      match slot.state
      case Free => stop := false;
      case Done(_) => stop := false;
      case Waiting(_, _) => stop := slot.cancelled && slot.cleaning == 0;
      case Joining(j) =>
        var a, b := tasks[j.left].state.Done?, tasks[j.right].state.Done?;
        stop := (a && b) || (j.join.Race? && ((a && !tasks[j.right].cancelled) || (b && !tasks[j.left].cancelled)));
      case _ => stop := true;
    }

    /** Scan round from the cursor for the first slot to act on. */
    method Select(s: Setting) returns (r: Option<nat>)
      requires Rep() && Inv(s, model, tree)
      ensures r == Scan(model.tasks, model.cursor, 0)
      ensures r.Some? ==> r.value < tasks.Length
    {
      hide Rep, Shape, CleanedIn, Occupied, Look;
      Facts();
      Counters();
      for offset := 0 to tasks.Length
        invariant Scan(model.tasks, cursor, 0) == Scan(model.tasks, cursor, offset)
      {
        var index := (cursor + offset) % tasks.Length;
        if tasks[index].state.Joining? {
          JoinerLive(model.tasks, tree, index);
          ChildrenIn(model.tasks, tree, index);
        }
        var stop := Stops(index);
        if stop {
          return Some(index);
        }
      }
      return None;
    }

    lemma Layout()
      requires Rep()
      ensures IsLayout(model, Kinds(frames.slots[..])) && Kinds(frames.slots[..]) == Order(frames.plan, model)
    {
      hide IsLayout, StacksHold, SlotsHold, RowsHold, Partition, Spells, Accounts;
      SlotOrderIsLayout(frames.slots[..], frames.stacks, model);
      KindsListed(frames.slots[..], frames.plan, frames.stacks);
      StacksAre(frames.stacks, model.tasks);
    }

    /** Everything the live tasks and frames depend on. */
    method Retained(h: Values) returns (control: V)
      requires Rep()
      ensures control == RetainControl(h, model.tasks, Kinds(frames.slots[..]))
    {
      hide Rep;
      control := OfTasks(h);
      control := OfFrames(h, control);
    }

    method OfFrames(h: Values, base: V) returns (control: V)
      ensures control == FramesControl(h, Kinds(frames.slots[..]), base)
    {
      hide Kinds, FramesControl;
      ghost var cells := frames.slots[..];
      NoKinds(h, base);
      control := base;
      assert cells[..0] == [];
      for k := 0 to frames.slots.Length
        invariant control == FramesControl(h, Kinds(cells[..k]), base)
      {
        assert cells[..k + 1][..k] == cells[..k] && cells[..k + 1][k] == frames.slots[k];
        KindsStep(h, cells[..k + 1], base);
        var cell := frames.slots[k];
        if cell.Some? {
          match cell.value.kind
          case FinallyFrame(_, input) => control := h.influence(control, input);
          case Choose(_, _, input) => control := h.influence(control, input);
          case Condition(_, _, _, value) => control := h.influence(control, value);
          case Cleaned(outcome) => control := h.influence(control, h.retainResult(outcome));
          case _ =>
        }
      }
      assert cells[..frames.slots.Length] == cells;
    }

    method OfTasks(h: Values) returns (control: V)
      requires Rep()
      ensures control == TasksControl(h, model.tasks)
    {
      hide Rep;
      Facts();
      control := h.unit;
      for k := 0 to tasks.Length
        invariant control == TasksControl(h, model.tasks[..k])
      {
        assert model.tasks[..k + 1][..k] == model.tasks[..k];
        var slot := tasks[k];
        if !slot.state.Free? {
          if slot.input.Some? {
            control := h.influence(control, slot.input.value);
          }
          if slot.state.Returning? || slot.state.Done? || slot.state.Halted? {
            control := h.influence(control, h.retainResult(slot.state.outcome));
          }
        }
      }
      assert model.tasks[..tasks.Length] == model.tasks;
    }

    method FinalFault(h: Values, fault: Fault) returns (r: Res)
      requires Rep()
      ensures r == TerminalFault(h, model.tasks, Kinds(frames.slots[..]), fault)
    {
      var control := Retained(h);
      r := h.influenceResult(Err(h.error(fault)), control);
    }

    /** Count a transition and move the cursor past its task. */
    method Spending(i: nat)
      requires Rep() && i < tasks.Length && |model.tasks| == tasks.Length
      modifies this`model, this`steps, this`cleanupSteps, this`cursor
      ensures Rep() && model == Spend(old(model), i)
    {
      if aborting {
        cleanupSteps := cleanupSteps + 1;
      } else {
        steps := if steps < U64_MAX then steps + 1 else steps;
      }
      cursor := (i + 1) % tasks.Length;
      model := Spend(model, i);
    }

    /** End the run because the cleanup budget is spent. */
    method Halting(s: Setting) returns (out: Option<Advance>)
      requires Rep() && tasks.Length > 0 && |model.tasks| == tasks.Length
      modifies tasks, this`model
      ensures Rep() && |model.tasks| == |old(model.tasks)| == tasks.Length
      ensures Turn(model, out) == Halt(s, old(model), old(Kinds(frames.slots[..])))
    {
      hide Rep, TerminalFault, Kinds;
      Facts();
      var result := FinalFault(s.h, Fuel);
      var join := JoinOf(tasks[0].state);
      Write(0, tasks[0].(state := Halted(result, join)));
      out := Some(Finished(result));
    }

    /** Spend a step on task `i` and carry out its transition, or halt. */
    method Dispatching(s: Setting, i: nat) returns (out: Option<Advance>)
      requires Rep() && Inv(s, model, tree) && i < tasks.Length && i in Ids(tree)
      modifies tasks, frames, frames.slots, bindings, this`model, this`ticket, this`steps, this`cleanupSteps,
        this`cursor
      ensures Rep() && Turn(model, out) == Dispatch(s, old(model), i, old(Kinds(frames.slots[..])))
      ensures i < |old(model).tasks| && i < |model.tasks|
      ensures frames.plan ==
        if old(aborting) && old(cleanupSteps) >= limits.cleanupSteps then old(frames.plan)
        else Replanned(old(frames.plan), i, old(model.tasks[i]).state.Returning?, |model.tasks[i].stack|)
    {
      hide Rep, Inv, Kinds, Transition, Halt;
      RootLive(s, model, tree);
      Facts();
      Counters();
      if aborting && cleanupSteps >= limits.cleanupSteps {
        out := Halting(s);
        return;
      }
      ghost var m := Spend(model, i);
      SpendKeeps(s, model, tree, i);
      Spending(i);
      var fault;
      out, fault := Transitioning(s, i);
      if fault.Some? {
        Faulting(s, i, fault.value);
      }
    }

    /** Find a task to act on and act. */
    method Scheduling(s: Setting) returns (out: Option<Advance>)
      requires Rep() && Inv(s, model, tree) && |model.tasks| > 0 && !Terminal(model.tasks[0].state)
      modifies tasks, frames, frames.slots, bindings, this`model, this`ticket, this`steps, this`cleanupSteps,
        this`cursor
      ensures Rep() && Turn(model, out) == Schedule(s, old(model), old(Kinds(frames.slots[..])))
      ensures frames.plan == PickPlan(s, old(model), old(frames.plan), model)
    {
      hide Rep, Inv, Kinds, Scan, Dispatch, FaultResult;
      Facts();
      Counters();
      ghost var m := model;
      var pick := Select(s);
      if pick.None? {
        return Some(Blocked);
      }
      var i := pick.value;
      if tasks[i].state.Waiting? {
        return Some(Withdraw(i, tasks[i].state.ticket));
      }
      ConvertKeeps(s, m, tree, i);
      var slot := tasks[i];
      if slot.cancelled && slot.cleaning == 0 && !slot.state.Joining?
        && !(slot.state.Returning? && slot.state.outcome.Err?) {
        Faulting(s, i, Cancelled);
      } else {
        assert m.tasks[i := m.tasks[i]] == m.tasks;
      }
      out := Dispatching(s, i);
    }

    /** One pass of the scheduling loop. */
    method Pass(s: Setting) returns (out: Option<Advance>)
      requires Rep() && Inv(s, model, tree)
      modifies this, tasks, frames, frames.slots, bindings
      ensures Rep() && home == old(home) && imageId == old(imageId) && limits == old(limits)
      ensures IsLayout(old(model), old(Kinds(frames.slots[..])))
      ensures Turn(model, out) == Iterate(s, old(model), old(Kinds(frames.slots[..])))
      ensures Inv(s, model, tree)
      ensures |old(model).tasks| > 0 && old(Kinds(frames.slots[..])) == Order(old(frames.plan), old(model))
      ensures frames.plan == PlanAfter(s, old(model), Tick(old(Kinds(frames.slots[..]))), old(frames.plan))
    {
      hide Rep, Shape, CleanedIn, Occupied, Scan, Transition, Inv, IsLayout, Kinds, TerminalFault, Schedule;
      ghost var m, layout := model, Kinds(frames.slots[..]);
      Layout();
      Facts();
      Counters();
      ghost var grown := ApplyKeeps(s, m, tree, Tick(layout));
      RootLive(s, m, tree);
      if tasks[0].state.Done? || tasks[0].state.Halted? {
        return Some(Finished(tasks[0].state.outcome));
      }
      if !aborting && limits.maxSteps.Some? && steps >= limits.maxSteps.value {
        CancelAll();
        CancelKeeps(s, m, tree);
      }
      out := Scheduling(s);
      tree := grown;
    }

    // ----- the host's calls -----

    /** The storage holds a reachable machine of the image it was created for. */
    ghost predicate Valid(h: Values)
      reads this, tasks, frames, frames.slots, bindings
    {
      Rep() && Inv(Setting(home, h), model, tree) && imageId == home.id
    }

    /** Advance by at most `fuel` transitions. */
    method Advance(image: Image, h: Values, fuel: nat)
      returns (out: Advance, ghost states: seq<Machine>, ghost moves: seq<Move>, ghost plans: seq<Plan>)
      requires Valid(h) && (image.id == imageId ==> image == home)
      modifies this, tasks, frames, frames.slots, bindings
      ensures Valid(h) && home == old(home)
      ensures |states| == |moves| + 1 && states[0] == old(model) && states[|moves|] == model
      ensures |plans| == |moves| + 1 && plans[0] == old(frames.plan) && plans[|moves|] == frames.plan
      ensures image.id != imageId ==>
        moves == [] && out == Finished(TerminalFault(h, model.tasks, Kinds(frames.slots[..]), ImageMismatch))
      ensures image.id == imageId ==>
        Advances(Setting(home, h), states, moves, fuel, out) && Laid(Setting(home, h), states, moves, plans)
    {
      hide Rep, Inv, Iterate, IsLayout, Kinds, TerminalFault, PlanAfter, Order;
      states, moves, plans := [model], [], [frames.plan];
      if image.id != imageId {
        var result := FinalFault(h, ImageMismatch);
        return Finished(result), states, moves, plans;
      }
      var s := Setting(image, h);
      Facts();
      RootLive(s, model, tree);
      for k := 0 to fuel
        invariant Valid(h) && home == image && imageId == image.id
        invariant |moves| == k && Advances(s, states, moves, k, Yielded) && states[0] == old(model)
          && states[k] == model
        invariant Laid(s, states, moves, plans) && plans[0] == old(frames.plan) && plans[k] == frames.plan
      {
        ghost var m, layout := model, Kinds(frames.slots[..]);
        RootLive(s, m, tree);
        NeverYields(s, m, layout);
        var pause := Pass(s);
        RootLive(s, model, tree);
        Facts();
        AdvancesMore(s, states, moves, Tick(layout), model, fuel, pause);
        LaidMore(s, states, moves, plans, Tick(layout), model, frames.plan);
        states, moves, plans := states + [model], moves + [Tick(layout)], plans + [frames.plan];
        if pause.Some? {
          return pause.value, states, moves, plans;
        }
      }
      return Yielded, states, moves, plans;
    }

    /** Deliver a host response. */
    method Complete(image: Image, h: Values, task: nat, ticket: nat, event: HostEvent) returns (fault: Option<Fault>)
      requires Valid(h) && (image.id == imageId ==> image == home)
      modifies this, tasks, frames, frames.slots, bindings
      ensures Valid(h) && home == old(home) && |old(model).tasks| > 0
      ensures image.id != imageId ==>
        fault == Some(ImageMismatch) && model == old(model) && frames.plan == old(frames.plan)
      ensures image.id == imageId ==>
        && Delivery(model, fault) == Deliver(Setting(home, h), old(model), task, ticket, event)
        && frames.plan == PlanAfter(Setting(home, h), old(model), Respond(task, ticket, event), old(frames.plan))
    {
      hide Rep, Inv, Answer;
      Facts();
      Counters();
      ghost var m := model;
      var s := Setting(image, h);
      RootLive(Setting(home, h), m, tree);
      if image.id != imageId {
        return Some(ImageMismatch);
      }
      DeliverKeeps(s, m, tree, task, ticket, event);
      if Terminal(tasks[0].state) || task >= tasks.Length || !tasks[task].state.Waiting?
        || tasks[task].state.ticket != ticket {
        return Some(StaleEvent);
      }
      fault := Answering(s, task, event);
    }

    /** Give a waiting task its response. */
    method Answering(s: Setting, i: nat, event: HostEvent) returns (fault: Option<Fault>)
      requires Rep() && i < tasks.Length && |model.tasks| == tasks.Length && tasks[i].state.Waiting?
      modifies tasks, frames, frames.slots, this`model
      ensures Rep() && |model.tasks| == |old(model.tasks)| == tasks.Length && old(model.tasks[i]).state.Waiting?
      ensures Did(old(model), i, Answer(s, old(model.tasks[i]), event, limits.framesPerTask, Room(old(model))), fault,
        model)
      ensures frames.plan == Lengthened(old(frames.plan), i, |model.tasks[i].stack|)
    {
      hide Rep, Occupied, Conclude, EnterScope, Extend;
      Facts();
      ghost var m, t := model, model.tasks[i];
      assert m.tasks[i := t] == m.tasks;
      var node := tasks[i].state.node;
      match event {
        case Complete(result) =>
          Charging(s.h, i, s.h.retainResult(result));
          ghost var u := model.tasks[i];
          fault := Finishing(s, i, node, result);
          SetTwice(m, i, u, Conclude(s, u, node, result).task);
        case Enter(context) => fault := Scoping(s, i, context);
        case Continue(entry, input) =>
          if !s.image.Has(node) {
            return Some(InvalidNode);
          }
          if !s.image.nodes[node].kind.Request? {
            return Some(StaleEvent);
          }
          Charging(s.h, i, s.h.retainControl(input));
          ghost var u := model.tasks[i];
          RoomSet(m, i, u);
          Facts();
          ghost var l := Extend(s, u, entry, input, limits.framesPerTask, Room(m));
          fault := Extending(s, i, entry, input);
          SetTwice(m, i, u, l.task);
      }
      Facts();
    }

    /** Keep the control of a matching response. */
    method Charging(h: Values, i: nat, control: V)
      requires Rep() && i < tasks.Length
      modifies tasks, this`model
      ensures Rep() && |model.tasks| == |old(model.tasks)| == tasks.Length
      ensures model == SetTask(old(model), i, Charged(h, old(model.tasks[i]), control))
    {
      hide Rep;
      Facts();
      var slot := tasks[i];
      Write(i, slot.(input := Some(if slot.input.Some? then h.influence(slot.input.value, control) else control)));
    }

    method Scoping(s: Setting, i: nat, context: nat) returns (fault: Option<Fault>)
      requires Rep() && i < tasks.Length && |model.tasks| == tasks.Length && tasks[i].state.Waiting?
      modifies tasks, frames, frames.slots, this`model
      ensures Rep() && |model.tasks| == |old(model.tasks)| == tasks.Length && old(model.tasks[i]).state.Waiting?
      ensures Did(old(model), i, EnterScope(s, old(model.tasks[i]), context, limits.framesPerTask, Room(old(model))),
        fault, model)
      ensures frames.plan == Lengthened(old(frames.plan), i, |model.tasks[i].stack|)
    {
      hide Rep, Occupied;
      Facts();
      ghost var m, t := model, model.tasks[i];
      assert m.tasks[i := t] == m.tasks;
      var node := tasks[i].state.node;
      if !s.image.Has(node) {
        return Some(InvalidNode);
      }
      if !s.image.nodes[node].kind.Scope? {
        return Some(StaleEvent);
      }
      var ok := CheckOn(i, 2);
      if !ok {
        return Some(Frames);
      }
      var saved := tasks[i].context;
      ok := PushOn(i, FrameKind.Finish(node));
      ghost var u := Push(t, FrameKind.Finish(node));
      RoomSet(m, i, u);
      ok := PushOn(i, FrameKind.Context(saved));
      ghost var v := Push(u, FrameKind.Context(t.context));
      SetTwice(m, i, u, v);
      Facts();
      Write(i, tasks[i].(context := context));
      SetTwice(m, i, v, v.(context := context));
      Facts();
      if tasks[i].input.None? {
        return Some(Type);
      }
      var body, input := s.image.nodes[node].kind.body, tasks[i].input.value;
      Begun(i, body, input);
      SetTwice(m, i, v.(context := context), Start(v.(context := context), body, input));
      return None;
    }

    method Extending(s: Setting, i: nat, entry: nat, input: V) returns (fault: Option<Fault>)
      requires Rep() && i < tasks.Length && |model.tasks| == tasks.Length && tasks[i].state.Waiting?
      modifies tasks, frames, frames.slots, this`model
      ensures Rep() && |model.tasks| == |old(model.tasks)| == tasks.Length && old(model.tasks[i]).state.Waiting?
      ensures Did(old(model), i, Extend(s, old(model.tasks[i]), entry, input, limits.framesPerTask, Room(old(model))),
        fault, model)
      ensures frames.plan == Lengthened(old(frames.plan), i, |model.tasks[i].stack|)
    {
      hide Rep, Occupied;
      Facts();
      ghost var m, t := model, model.tasks[i];
      assert m.tasks[i := t] == m.tasks;
      if !s.image.Has(entry) {
        return Some(InvalidNode);
      }
      var slot := tasks[i];
      var charged := if slot.input.Some? then s.h.influence(input, slot.input.value) else input;
      fault := Enter(i, Continuation(slot.state.node, entry), entry, charged);
    }

    /** Request cancellation of the whole run. */
    method CancelRun(h: Values)
      requires Valid(h)
      modifies this, tasks
      ensures Valid(h) && home == old(home) && |old(model).tasks| > 0 && model == Cancel(old(model))
    {
      hide Rep, Inv, Cancel;
      Facts();
      RootLive(Setting(home, h), model, tree);
      CancelKeeps(Setting(home, h), model, tree);
      CancelAll();
    }

    /** Admit an image and take over empty storage for one execution. */
    static method Create(
      image: Image, tasks: array<Slot>, frames: array<Option<Frame>>, bindings: array<Option<V>>, limits: Limits,
      input: V, context: nat, ghost h: Values) returns (r: Result<Execution, Fault>)
      requires tasks as object != bindings && tasks as object != frames && bindings as object != frames
      modifies tasks, frames, bindings
      ensures r.Ok? <==>
        && Program.Valid(image) && 0 < tasks.Length <= U32_MAX && frames.Length <= U32_MAX
        && image.bindings <= limits.bindingsPerTask && tasks.Length * limits.bindingsPerTask <= bindings.Length
      ensures r.Ok? ==>
        && fresh(r.value) && fresh(r.value.frames) && r.value.tasks == tasks && r.value.frames.slots == frames
        && r.value.bindings == bindings && r.value.Valid(h) && r.value.home == image
        && r.value.model == Initial(image, tasks.Length, frames.Length, limits, input, context)
        && r.value.frames.plan == Blank(tasks.Length)
      ensures r.Err? ==>
        r.error == if !Program.Valid(image) then EarliestFault(image)
                   else if tasks.Length == 0 || tasks.Length > U32_MAX then Tasks
                   else if frames.Length > U32_MAX then Frames else InvalidBinding
    {
      var valid := Validate(image);
      if valid.Err? {
        return Err(valid.error);
      }
      if tasks.Length == 0 || tasks.Length > U32_MAX {
        return Err(Tasks);
      }
      if frames.Length > U32_MAX {
        return Err(Frames);
      }
      Strides(bindings.Length, tasks.Length, limits.bindingsPerTask);
      if image.bindings > limits.bindingsPerTask || bindings.Length / tasks.Length < limits.bindingsPerTask {
        return Err(InvalidBinding);
      }
      for k := 0 to tasks.Length
        invariant forall j :: 0 <= j < k ==> tasks[j] == DEFAULT
      {
        tasks[k] := DEFAULT;
      }
      for k := 0 to bindings.Length
        invariant forall j :: 0 <= j < tasks.Length ==> tasks[j] == DEFAULT
        invariant forall j :: 0 <= j < k ==> bindings[j].None?
      {
        bindings[k] := None;
      }
      tasks[0] := DEFAULT.(state := Ready, pc := image.entry, input := Some(input), context := context);
      var pool := new FramePool(frames, tasks.Length);
      ghost var m := Initial(image, tasks.Length, frames.Length, limits, input, context);
      var meta := Suspended(tasks.Length, frames.Length, image.id, limits, 0, NONE, 0, 0, 0, 0, 0, false);
      var e := new Execution.FromView(meta, tasks, pool, bindings, m, Solo(0), image);
      InitialHolds(image, limits, input, context, tasks[..], pool.plan.paths, pool.stacks, bindings[..], frames.Length);
      InitialInv(Setting(image, h), tasks.Length, frames.Length, limits, input, context);
      return Ok(e);
    }

    /** Give the storage back to the host. */
    method Suspend(h: Values) returns (meta: Suspended, ghost x: Snapshot)
      requires Valid(h)
      ensures Left(h, meta, x)
      ensures x == Snapshot(tasks[..], frames.slots[..], bindings[..], frames.plan, frames.stacks, model, tree, home)
    {
      meta := Suspended(tasks.Length, frames.slots.Length, imageId, limits, frames.nextUnused, frames.freeHead,
                        frames.freeCount, steps, cleanupSteps, ticket, cursor, aborting);
      x := Snapshot(tasks[..], frames.slots[..], bindings[..], frames.plan, frames.stacks, model, tree, home);
    }

    /** Resume in storage at least as large, with larger limits if the host chose so. */
    static method Resume(
      image: Image, meta: Suspended, tasks: array<Slot>, frames: array<Option<Frame>>, bindings: array<Option<V>>,
      ghost h: Values, ghost before: Suspended, ghost x: Snapshot) returns (r: Result<Execution, Fault>)
      requires tasks as object != bindings && tasks as object != frames && bindings as object != frames
      requires Left(h, before, x) && (image.id == meta.imageId ==> image == x.home)
      requires meta == before.(limits := before.limits.(
        framesPerTask := meta.limits.framesPerTask, bindingsPerTask := meta.limits.bindingsPerTask))
      requires before.limits.framesPerTask <= meta.limits.framesPerTask
        && before.limits.bindingsPerTask <= meta.limits.bindingsPerTask
      requires
        (&& |x.slots| <= tasks.Length && |x.cells| <= frames.Length
         && tasks.Length * meta.limits.bindingsPerTask <= bindings.Length) ==>
        Moved(x, before.limits.bindingsPerTask, tasks[..], frames[..], meta.limits.bindingsPerTask, bindings[..])
      ensures r.Ok? <==>
        && image.id == meta.imageId && |x.slots| <= tasks.Length <= U32_MAX && |x.cells| <= frames.Length <= U32_MAX
        && image.bindings <= meta.limits.bindingsPerTask
          && tasks.Length * meta.limits.bindingsPerTask <= bindings.Length
      ensures r.Ok? ==>
        && fresh(r.value) && fresh(r.value.frames) && r.value.tasks == tasks && r.value.frames.slots == frames
        && r.value.bindings == bindings && r.value.Valid(h) && r.value.home == image
        && |x.model.tasks| <= tasks.Length
        && r.value.model == Grow(x.model, tasks.Length, frames.Length, meta.limits.framesPerTask,
          meta.limits.bindingsPerTask)
        && |x.plan.paths| <= tasks.Length && r.value.frames.plan == Padded(x.plan, tasks.Length)
      ensures r.Err? ==>
        r.error == if image.id != meta.imageId then ImageMismatch
                   else if tasks.Length < |x.slots| || tasks.Length > U32_MAX then Tasks
                   else if frames.Length < |x.cells| || frames.Length > U32_MAX then Frames else InvalidBinding
    {
      if image.id != meta.imageId {
        return Err(ImageMismatch);
      }
      if tasks.Length < meta.taskCount || tasks.Length > U32_MAX {
        return Err(Tasks);
      }
      if frames.Length < meta.frameCount || frames.Length > U32_MAX {
        return Err(Frames);
      }
      LeftTasks(h, before, x);
      Strides(bindings.Length, tasks.Length, meta.limits.bindingsPerTask);
      if meta.limits.bindingsPerTask < image.bindings || bindings.Length / tasks.Length < meta.limits.bindingsPerTask {
        return Err(InvalidBinding);
      }
      ghost var plan, stacks := Padded(x.plan, tasks.Length), PaddedStacks(x.stacks, tasks.Length);
      GrownSound(h, before, x, meta.limits.bindingsPerTask, tasks[..], frames[..], bindings[..]);
      ghost var m := Grow(x.model, tasks.Length, frames.Length, meta.limits.framesPerTask, meta.limits.bindingsPerTask);
      GrownHolds(h, before, x, m, meta.limits.bindingsPerTask, tasks[..], frames[..], bindings[..]);
      GrowKeeps(Setting(x.home, h), x.model, x.tree, tasks.Length, frames.Length,
                meta.limits.framesPerTask, meta.limits.bindingsPerTask);
      var pool := new FramePool.FromMeta(frames, meta.nextUnused, meta.freeHead, meta.freeCount, plan, stacks);
      var e := new Execution.FromView(meta, tasks, pool, bindings, m, x.tree, x.home);
      return Ok(e);
    }
  }
}
