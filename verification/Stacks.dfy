/** What a task's continuation stack promises: how deep in cleanup it is, which
    bindings and context it will restore, and which instructions it may resume. */
module Stacks {
  import opened Program
  import opened Machine

  /** Cleanups in progress on a stack. */
  function CleanedIn(stack: seq<FrameKind>): nat {
    if stack == [] then 0
    else CleanedIn(stack[..|stack| - 1]) + (if stack[|stack| - 1].Cleaned? then 1 else 0)
  }

  /** The binding row a stack leaves behind once every frame is popped. */
  function Restored(stack: seq<FrameKind>, env: seq<Option<V>>): seq<Option<V>> {
    if stack == [] then env
    else
      var f := stack[|stack| - 1];
      Restored(stack[..|stack| - 1], if f.Unbind? && f.slot < |env| then env[f.slot := f.previous] else env)
  }

  /** The acting context a stack leaves behind once every frame is popped. */
  function RestoredContext(stack: seq<FrameKind>, context: nat): nat {
    if stack == [] then context
    else
      var f := stack[|stack| - 1];
      RestoredContext(stack[..|stack| - 1], if f.Context? then f.context else context)
  }

  function BaseEnv(t: Task): seq<Option<V>> { Restored(t.stack, t.env) }

  function BaseContext(t: Task): nat { RestoredContext(t.stack, t.context) }

  predicate FrameOk(image: Image, width: nat, f: FrameKind) {
    match f
    case Vacant => false
    case Finish(n) => image.Has(n)
    case ThenFrame(n) => image.Has(n)
    case CatchFrame(n) => image.Has(n)
    case FinallyFrame(n, _) => image.Has(n)
    case Cleaned(_) => true
    case Condition(c, b, _, _) => image.Has(c) && image.Has(b)
    case Iteration(c, b, _) => image.Has(c) && image.Has(b)
    case Context(_) => true
    case Choose(y, n, _) => image.Has(y) && image.Has(n)
    case Bind(slot, b) => slot < width && image.Has(b)
    case Unbind(slot, _) => slot < width
    case Continuation(n, e) => image.Has(n) && image.Has(e)
  }

  predicate StackOk(image: Image, width: nat, stack: seq<FrameKind>) {
    forall k :: 0 <= k < |stack| ==> FrameOk(image, width, stack[k])
  }

  predicate StateOk(image: Image, t: Task) {
    match t.state
    case Ready => image.Has(t.pc)
    case Waiting(_, n) => image.Has(n) && (image.nodes[n].kind.Request? || image.nodes[n].kind.Scope?)
    case Joining(j) => image.Has(j.node) && image.nodes[j.node].kind.Fork?
    case Halted(_, j) => j.Some? ==> image.Has(j.value.node)
    case _ => true
  }

  /** A task whose instructions, slots and depth are all within bounds. */
  predicate TaskOk(image: Image, limits: Limits, t: Task) {
    && |t.env| == limits.bindingsPerTask
    && |t.stack| <= limits.framesPerTask
    && StackOk(image, |t.env|, t.stack)
    && StateOk(image, t)
  }

  /** The part of a task that no local transition may change. */
  ghost predicate SameFrame(t: Task, u: Task) {
    && u.parent == t.parent
    && u.cancelled == t.cancelled
    && |u.env| == |t.env|
    && u.cleaning + CleanedIn(t.stack) == t.cleaning + CleanedIn(u.stack)
    && BaseEnv(u) == BaseEnv(t)
    && BaseContext(u) == BaseContext(t)
  }

  /** A live task with a single-task state: not waiting for children, not halted. */
  predicate Single(t: Task) {
    && !t.state.Free? && !t.state.Joining? && !t.state.Halted?
    && t.input.Some?
    && (t.state.Done? ==> t.stack == [])
  }

  /** `u` is a legal successor of `t` using at most `room` more frames. */
  ghost predicate Successor(image: Image, max: nat, room: int, t: Task, u: Task) {
    && SameFrame(t, u)
    && Single(u)
    && StackOk(image, |u.env|, u.stack)
    && StateOk(image, u)
    && |u.stack| <= max
    && |u.stack| - |t.stack| <= room
  }

  predicate ProgramOk(s: Setting, width: nat) { Valid(s.image) && s.image.bindings <= width }

  // ----- pushing and popping -----

  lemma PushKeeps(t: Task, f: FrameKind)
    ensures CleanedIn(Push(t, f).stack) == CleanedIn(t.stack) + (if f.Cleaned? then 1 else 0)
    ensures !f.Unbind? ==> BaseEnv(Push(t, f)) == BaseEnv(t)
    ensures !f.Context? ==> BaseContext(Push(t, f)) == BaseContext(t)
  {
    assert Push(t, f).stack[..|t.stack|] == t.stack;
  }

  lemma TargetsIn(s: Setting, width: nat, n: nat)
    requires ProgramOk(s, width) && s.image.Has(n)
    ensures forall k :: k in Targets(s.image.nodes[n]) ==> s.image.Has(k)
    ensures s.image.nodes[n].next.Some? ==> s.image.Has(s.image.nodes[n].next.value)
    ensures SlotsIn(s.image.nodes[n], width)
    ensures PortsIn(s.image.nodes[n], s.image.imports)
  {
    var node := s.image.nodes[n];
    assert NodeValid(s.image, node);
    if node.next.Some? {
      assert Targets(node)[0] == node.next.value;
    }
  }

  // ----- every local transition is a legal successor -----

  /** What the machine stores for its own task after a local transition. */
  function After(h: Values, l: Local): Task {
    if l.Trap? then Return(l.task, FaultResult(h, l.task, l.fault)) else l.task
  }

  lemma ConcludeOk(s: Setting, t: Task, node: nat, result: Res, max: nat, room: int)
    requires ProgramOk(s, |t.env|) && StackOk(s.image, |t.env|, t.stack)
    requires t.input.Some? && s.image.Has(node)
    requires |t.stack| <= max && 0 <= room
    ensures Conclude(s, t, node, result).Next?
    ensures Successor(s.image, max, room, t, Conclude(s, t, node, result).task)
  {
    TargetsIn(s, |t.env|, node);
  }

  lemma Enter1Ok(s: Setting, t: Task, f: FrameKind, pc: nat, input: V, max: nat, room: int)
    requires StackOk(s.image, |t.env|, t.stack) && FrameOk(s.image, |t.env|, f)
    requires !f.Unbind? && !f.Context? && !f.Cleaned?
    requires t.input.Some? && s.image.Has(pc)
    requires |t.stack| <= max && 0 <= room
    ensures var l := Enter1(t, f, pc, input, max, room);
      && (l.Next? || l.Trap?)
      && Successor(s.image, max, room, t, After(s.h, l))
  {
    PushKeeps(t, f);
  }

  lemma Enter2Ok(s: Setting, t: Task, f: FrameKind, g: FrameKind, pc: nat, input: V, max: nat, room: int)
    requires StackOk(s.image, |t.env|, t.stack)
    requires FrameOk(s.image, |t.env|, f) && FrameOk(s.image, |t.env|, g)
    requires !f.Unbind? && !f.Context? && !f.Cleaned?
    requires !g.Unbind? && !g.Context? && !g.Cleaned?
    requires t.input.Some? && s.image.Has(pc)
    requires |t.stack| <= max && 0 <= room
    ensures var l := Enter2(t, f, g, pc, input, max, room);
      && (l.Next? || l.Trap?)
      && Successor(s.image, max, room, t, After(s.h, l))
  {
    PushKeeps(t, f);
    if Fits(t, 1, max, room) {
      Enter1Ok(s, Push(t, f), g, pc, input, max, room - 1);
    }
  }

  /** A task that differs only in its input and state has the same successors. */
  lemma Transport(image: Image, max: nat, room: int, t: Task, kept: Task, u: Task)
    requires kept == t.(input := kept.input, state := kept.state)
    requires Successor(image, max, room, kept, u)
    ensures Successor(image, max, room, t, u)
  {
  }

  lemma OpeningOk(s: Setting, width: nat, n: nat, input: V)
    requires ProgramOk(s, width) && s.image.Has(n)
    ensures var o := OpeningOf(s.image.nodes[n].kind, input);
      o.Some? ==>
        && FrameOk(s.image, width, o.value.frame) && s.image.Has(o.value.entry)
        && !o.value.frame.Unbind? && !o.value.frame.Context? && !o.value.frame.Cleaned?
  {
    TargetsIn(s, width, n);
    var node := s.image.nodes[n];
    match node.kind
    case Then(a, b) => assert a in Targets(node) && b in Targets(node);
    case Catch(a, b) => assert a in Targets(node) && b in Targets(node);
    case Finally(a, b) => assert a in Targets(node) && b in Targets(node);
    case Branch(c, a, b) => assert c in Targets(node) && a in Targets(node) && b in Targets(node);
    case Let(_, a, b) => assert a in Targets(node) && b in Targets(node);
    case While(a, b, _) => assert a in Targets(node) && b in Targets(node);
    case _ =>
  }

  /** The frames an instruction pushes when it starts: none, `Finish`, or `Finish` and
      the opening frame of a guarded instruction. */
  lemma BeginStack(s: Setting, t: Task, max: nat, room: int, ticket: nat)
    requires t.state.Ready? && t.input.Some? && s.image.Has(t.pc)
    ensures var l := Begin(s, t, max, room, ticket);
      var o := OpeningOf(s.image.nodes[t.pc].kind, t.input.value);
      && (o.None? ==> l.task.stack == t.stack || l.task.stack == t.stack + [Finish(t.pc)])
      && (o.Some? ==> l.Next? || l.Trap?)
      && (o.Some? && l.Next? ==>
        l.task.stack == t.stack + [Finish(t.pc)] + [o.value.frame] && l.task.pc == o.value.entry)
      && (o.Some? && l.Trap? ==> l.task.stack == t.stack || l.task.stack == t.stack + [Finish(t.pc)])
  {
  }

  /** Starting an instruction keeps the task's promises; a fork keeps them too and
      leaves the stack alone. */
  lemma BeginOk(s: Setting, t: Task, max: nat, room: int, ticket: nat)
    requires ProgramOk(s, |t.env|) && StackOk(s.image, |t.env|, t.stack)
    requires t.state.Ready? && t.input.Some? && s.image.Has(t.pc)
    requires |t.stack| <= max && 0 <= room
    ensures var l := Begin(s, t, max, room, ticket);
      && (l.Spawn? <==> s.image.nodes[t.pc].kind.Fork?)
      && (l.Await? ==> l.task.state == Waiting(ticket + 1, t.pc) && l.task.pc == t.pc && ticket < U64_MAX)
      && (l.Spawn? ==>
        l.task == t.(input := l.task.input) && l.task.input.Some? && s.image.Has(l.left) && s.image.Has(l.right))
      && (!l.Spawn? ==> Successor(s.image, max, room, t, After(s.h, l)))
  {
    hide CleanedIn, Restored, RestoredContext;
    var kind := s.image.nodes[t.pc].kind;
    var kept := Armed(s, t);
    BeginKindOk(s, kept, kind, t.input.value, max, room, ticket);
    var l := BeginKind(s, kept, kind, t.input.value, max, room, ticket);
    if !l.Spawn? {
      Transport(s.image, max, room, t, kept, After(s.h, l));
    }
  }

  lemma BeginKindOk(s: Setting, t: Task, kind: NodeKind, input: V, max: nat, room: int, ticket: nat)
    requires ProgramOk(s, |t.env|) && StackOk(s.image, |t.env|, t.stack)
    requires t.state.Ready? && t.input.Some? && s.image.Has(t.pc)
    requires kind == s.image.nodes[t.pc].kind
    requires |t.stack| <= max && 0 <= room
    ensures var l := BeginKind(s, t, kind, input, max, room, ticket);
      && (l.Spawn? <==> kind.Fork?)
      && (l.Await? ==> l.task.state == Waiting(ticket + 1, t.pc) && l.task.pc == t.pc && ticket < U64_MAX)
      && (l.Spawn? ==> l.task == t && s.image.Has(l.left) && s.image.Has(l.right))
      && (!l.Spawn? ==> Successor(s.image, max, room, t, After(s.h, l)))
  {
    hide CleanedIn, Restored, RestoredContext;
    var opening := OpeningOf(kind, input);
    if opening.Some? {
      OpeningOk(s, |t.env|, t.pc, input);
      Enter2Ok(s, t, Finish(t.pc), opening.value.frame, opening.value.entry, input, max, room);
    } else {
      BeginLeafOk(s, t, kind, input, max, room, ticket);
    }
  }

  lemma BeginLeafOk(s: Setting, t: Task, kind: NodeKind, input: V, max: nat, room: int, ticket: nat)
    requires ProgramOk(s, |t.env|) && StackOk(s.image, |t.env|, t.stack)
    requires t.state.Ready? && t.input.Some? && s.image.Has(t.pc)
    requires kind == s.image.nodes[t.pc].kind && OpeningOf(kind, input).None?
    requires |t.stack| <= max && 0 <= room
    ensures var l := BeginKind(s, t, kind, input, max, room, ticket);
      && (l.Spawn? <==> kind.Fork?)
      && (l.Await? ==> l.task.state == Waiting(ticket + 1, t.pc) && l.task.pc == t.pc && ticket < U64_MAX)
      && (l.Spawn? ==> l.task == t && s.image.Has(l.left) && s.image.Has(l.right))
      && (!l.Spawn? ==> Successor(s.image, max, room, t, After(s.h, l)))
  {
    hide CleanedIn, Restored, RestoredContext;
    TargetsIn(s, |t.env|, t.pc);
    var node := s.image.nodes[t.pc];
    match kind
    case Literal(c) => ConcludeOk(s, t, t.pc, Ok(s.h.influence(c, input)), max, room);
    case Input => ConcludeOk(s, t, t.pc, Ok(input), max, room);
    case Load(slot) =>
      if t.env[slot].Some? {
        ConcludeOk(s, t, t.pc, Ok(s.h.influence(t.env[slot].value, input)), max, room);
      }
    case Fail(e) => ConcludeOk(s, t, t.pc, Err(e), max, room);
    case If(a, b) =>
      assert a in Targets(node) && b in Targets(node);
      match s.h.truth(input) {
        case Ok(v) => Enter1Ok(s, t, Finish(t.pc), if v then a else b, input, max, room);
        case Err(e) => ConcludeOk(s, t, t.pc, Err(e), max, room);
      }
    case Call(a) =>
      assert a in Targets(node);
      Enter1Ok(s, t, Finish(t.pc), a, input, max, room);
    case Fork(a, b, _) => assert a in Targets(node) && b in Targets(node);
    case _ =>
  }

  lemma RestorePop(t: Task, f: FrameKind)
    ensures BaseEnv(Push(t, f)) ==
      Restored(t.stack, if f.Unbind? && f.slot < |t.env| then t.env[f.slot := f.previous] else t.env)
    ensures BaseContext(Push(t, f)) == RestoredContext(t.stack, if f.Context? then f.context else t.context)
  {
    assert Push(t, f).stack[..|t.stack|] == t.stack;
  }

  /** What popping `frame` off a task asks of the task below it. */
  ghost predicate Poppable(s: Setting, t: Task, frame: FrameKind, max: nat, room: int) {
    && ProgramOk(s, |t.env|) && StackOk(s.image, |t.env|, t.stack) && FrameOk(s.image, |t.env|, frame)
    && t.input.Some? && t.state.Ready?
    && |t.stack| < max && 1 <= room
    && CleanedIn(Push(t, frame).stack) <= t.cleaning
  }

  /** A pop that leaves the row, the context and the cleanup depth alone. */
  lemma PopPlain(image: Image, t: Task, frame: FrameKind, u: Task, max: nat, room: int)
    requires !frame.Unbind? && !frame.Context? && !frame.Cleaned?
    requires Successor(image, max, room, t, u)
    ensures Successor(image, max, room - 1, Push(t, frame), u)
  {
    PushKeeps(t, frame);
  }

  lemma PopCleanupOk(s: Setting, t: Task, frame: FrameKind, outcome: Res, max: nat, room: int)
    requires Poppable(s, t, frame, max, room) && (frame.FinallyFrame? || frame.Cleaned?)
    ensures var l := PopFrame(s, t, frame, outcome, max, room);
      l.Next? && Successor(s.image, max, room - 1, Push(t, frame), l.task)
  {
    PushKeeps(t, frame);
    hide CleanedIn, Restored, RestoredContext;
    PushKeeps(t, Cleaned(outcome));
  }

  lemma PopScopeOk(s: Setting, t: Task, frame: FrameKind, outcome: Res, max: nat, room: int)
    requires Poppable(s, t, frame, max, room) && (frame.Context? || frame.Unbind?)
    ensures var l := PopFrame(s, t, frame, outcome, max, room);
      l.Next? && Successor(s.image, max, room - 1, Push(t, frame), l.task)
  {
    PushKeeps(t, frame);
    RestorePop(t, frame);
    hide CleanedIn, Restored, RestoredContext;
  }

  lemma PopBindOk(s: Setting, t: Task, frame: FrameKind, outcome: Res, max: nat, room: int)
    requires Poppable(s, t, frame, max, room) && frame.Bind?
    ensures var l := PopFrame(s, t, frame, outcome, max, room);
      l.Next? && Successor(s.image, max, room, t, l.task)
  {
    hide CleanedIn, Restored, RestoredContext;
    if outcome.Ok? {
      var slot := frame.slot;
      var inner := t.(env := t.env[slot := Some(outcome.value)]);
      PushKeeps(inner, Unbind(slot, t.env[slot]));
      RestorePop(inner, Unbind(slot, t.env[slot]));
      assert inner.env[slot := t.env[slot]] == t.env;
    }
  }

  lemma PopLoopOk(s: Setting, t: Task, frame: FrameKind, outcome: Res, max: nat, room: int)
    requires Poppable(s, t, frame, max, room) && (frame.Condition? || frame.Iteration?)
    ensures var l := PopFrame(s, t, frame, outcome, max, room);
      l.Next? && Successor(s.image, max, room, t, l.task)
  {
    hide CleanedIn, Restored, RestoredContext;
    match frame
    case Condition(c, body, left, value) =>
      if outcome.Ok? && s.h.truth(outcome.value) == Ok(true) && left > 0 {
        Enter1Ok(s, t, Iteration(c, body, left - 1), body, s.h.influence(value, outcome.value), max, room);
      }
    case Iteration(c, body, left) =>
      if outcome.Ok? {
        Enter1Ok(s, t, Condition(c, body, left, outcome.value), c, outcome.value, max, room);
      }
  }

  lemma PopChoiceOk(s: Setting, t: Task, frame: FrameKind, outcome: Res, max: nat, room: int)
    requires Poppable(s, t, frame, max, room)
    requires frame.ThenFrame? || frame.CatchFrame? || frame.Choose? || frame.Finish? || frame.Continuation?
    ensures var l := PopFrame(s, t, frame, outcome, max, room);
      l.Next? && Successor(s.image, max, room, t, l.task)
  {
    hide CleanedIn, Restored, RestoredContext;
    match frame
    case Finish(node) => ConcludeOk(s, t, node, outcome, max, room);
    case Continuation(node, _) => ConcludeOk(s, t, node, outcome, max, room);
    case _ =>
  }

  lemma PopFrameOk(s: Setting, t: Task, frame: FrameKind, outcome: Res, max: nat, room: int)
    requires Poppable(s, t, frame, max, room)
    ensures var l := PopFrame(s, t, frame, outcome, max, room);
      l.Next? && Successor(s.image, max, room - 1, Push(t, frame), l.task)
  {
    if frame.FinallyFrame? || frame.Cleaned? {
      PopCleanupOk(s, t, frame, outcome, max, room);
    } else if frame.Context? || frame.Unbind? {
      PopScopeOk(s, t, frame, outcome, max, room);
    } else {
      if frame.Bind? {
        PopBindOk(s, t, frame, outcome, max, room);
      } else if frame.Condition? || frame.Iteration? {
        PopLoopOk(s, t, frame, outcome, max, room);
      } else {
        PopChoiceOk(s, t, frame, outcome, max, room);
      }
      PopPlain(s.image, t, frame, PopFrame(s, t, frame, outcome, max, room).task, max, room);
    }
  }

  /** Popping a frame keeps the task's promises and never raises a fault: the slot
      just freed is there for the frame that a cleanup, binding or loop pushes next. */
  lemma UnwindOk(s: Setting, t: Task, max: nat, room: int)
    requires ProgramOk(s, |t.env|) && StackOk(s.image, |t.env|, t.stack)
    requires t.state.Returning? && t.input.Some?
    requires |t.stack| <= max && 0 <= room
    requires CleanedIn(t.stack) <= t.cleaning
    ensures var l := Unwind(s, t, max, room);
      l.Next? && Successor(s.image, max, room, t, l.task)
  {
    hide CleanedIn, Restored, RestoredContext;
    if t.stack == [] {
    } else {
      var top := |t.stack| - 1;
      var frame := t.stack[top];
      var kept := t.(state := Ready, input := Some(Kept(s.h, t)), stack := t.stack[..top]);
      assert Push(kept, frame).stack == t.stack;
      assert Push(kept, frame) == t.(state := Ready, input := Some(Kept(s.h, t)));
      PopFrameOk(s, kept, frame, Carried(s.h, t), max, room + 1);
      var u := PopFrame(s, kept, frame, Carried(s.h, t), max, room + 1).task;
      Transport(s.image, max, room, t, Push(kept, frame), u);
    }
  }

  /** Turning a task into a cancelled return changes nothing else about it. */
  lemma ConvertOk(image: Image, h: Values, t: Task, max: nat)
    requires Single(t) && !t.state.Done?
    requires StackOk(image, |t.env|, t.stack) && StateOk(image, t) && |t.stack| <= max
    ensures Successor(image, max, 0, t, Convert(h, t))
  {
  }

  lemma EnterScopeOk(s: Setting, t: Task, context: nat, max: nat, room: int)
    requires ProgramOk(s, |t.env|) && StackOk(s.image, |t.env|, t.stack)
    requires t.state.Waiting? && StateOk(s.image, t) && t.input.Some?
    requires |t.stack| <= max && 0 <= room
    ensures var l := EnterScope(s, t, context, max, room);
      && (l.Next? || l.Trap?)
      && Successor(s.image, max, room, t, l.task)
      && (l.Next? ==> !l.task.state.Waiting?)
      && (l.Trap? ==> l.task == t)
  {
    hide CleanedIn, Restored, RestoredContext;
    var node := t.state.node;
    TargetsIn(s, |t.env|, node);
    if s.image.nodes[node].kind.Scope? {
      assert s.image.nodes[node].kind.body in Targets(s.image.nodes[node]);
      PushKeeps(t, Finish(node));
      var u := Push(t, Finish(node)).(context := context);
      PushKeeps(u, Context(t.context));
      RestorePop(u, Context(t.context));
    }
  }

  /** A host answer that is accepted or refused keeps the task's promises; a refusal
      leaves it waiting with the same stack, bindings and context. */
  lemma DeliverOk(s: Setting, t: Task, event: HostEvent, max: nat, room: int)
    requires ProgramOk(s, |t.env|) && StackOk(s.image, |t.env|, t.stack)
    requires t.state.Waiting? && StateOk(s.image, t) && t.input.Some?
    requires |t.stack| <= max && 0 <= room
    ensures var l := Answer(s, t, event, max, room);
      && (l.Next? || l.Trap?)
      && Successor(s.image, max, room, t, l.task)
      && (l.Next? ==> !l.task.state.Waiting?)
      && (l.Trap? ==> l.task == t.(input := l.task.input))
  {
    hide CleanedIn, Restored, RestoredContext;
    match event
    case Complete(result) =>
      var charged := Charged(s.h, t, s.h.retainResult(result));
      ConcludeOk(s, charged, t.state.node, result, max, room);
      Transport(s.image, max, room, t, charged, Conclude(s, charged, t.state.node, result).task);
    case Enter(context) => EnterScopeOk(s, t, context, max, room);
    case Continue(entry, input) => PushKeeps(t, Continuation(t.state.node, entry));
  }
}
