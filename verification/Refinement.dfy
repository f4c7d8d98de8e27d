/** The frame machine realizes the recursive evaluator, one task at a time. */
module Refinement {
  import opened Program
  import opened Machine
  import opened Stacks
  import E = Evaluator

  /** One task running on its own against a script of host replies. */
  datatype Solo = Solo(task: Task, ticket: nat, replies: seq<HostEvent>, asked: seq<E.Question>)

  /** The storage around the task: its depth limit and the frames it may hold in the pool. */
  datatype Limit = Limit(max: nat, pool: nat)

  function Room(z: Limit, t: Task): int { z.pool - |t.stack| }

  /** One transition of the task, or one host reply when it waits. */
  function Step(s: Setting, z: Limit, c: Solo): Solo {
    var t := c.task;
    match t.state
    case Ready => Begun(s, z, c)
    case Returning(_) => c.(task := Stacks.After(s.h, Unwind(s, t, z.max, Room(z, t))))
    case Waiting(_, _) =>
      if c.replies == [] then c
      else c.(task := Answer(s, t, c.replies[0], z.max, Room(z, t)).task, replies := c.replies[1..])
    case _ => c
  }

  function Begun(s: Setting, z: Limit, c: Solo): Solo
    requires c.task.state.Ready?
  {
    var l := Begin(s, c.task, z.max, Room(z, c.task), c.ticket);
    match l
    case Next(t) => c.(task := t)
    case Trap(_, _) => c.(task := Stacks.After(s.h, l))
    case Await(t, port, input) =>
      var position := if s.image.Has(t.pc) then s.image.nodes[t.pc].position else 0;
      Solo(t, c.ticket + 1, c.replies, c.asked + [E.Question(port, input, t.context, position, t.cleaning > 0)])
    case Spawn(_, _, _, _, _) => c
  }

  function Steps(s: Setting, z: Limit, c: Solo, k: nat): Solo
    decreases k
  {
    if k == 0 then c else Steps(s, z, Step(s, z, c), k - 1)
  }

  lemma {:induction false} StepsAdd(s: Setting, z: Limit, c: Solo, a: nat, b: nat)
    ensures Steps(s, z, c, a + b) == Steps(s, z, Steps(s, z, c, a), b)
    decreases a
  {
    if a > 0 {
      StepsAdd(s, z, Step(s, z, c), a - 1, b);
    }
  }

  // ----- meeting the evaluator -----

  /** The task stands at instruction `n` with input `v` in the world `w`. */
  ghost predicate Stands(t: Task, w: E.World, n: nat, v: V) {
    t.state.Ready? && t.pc == n && t.input == Some(v) && Within(t, w)
  }

  /** The task's surroundings are `w`, and cancellation does not interrupt it. */
  ghost predicate Within(t: Task, w: E.World) {
    t.env == w.env && t.context == w.context && w.cleanup == (t.cleaning > 0) && !CancelsHere(t)
  }

  /** Enough depth and pool for `peak` more continuations. */
  predicate Roomy(z: Limit, t: Task, peak: nat) { |t.stack| + peak <= z.max && |t.stack| + peak <= z.pool }

  /** Where a task is once its program has ended with `o`: everything but the result, the
      kept control and the program counter is as it was. */
  function Landed(c: Solo, o: E.Out, pc: nat): Solo {
    Solo(c.task.(state := Returning(o.result), input := Some(o.control), pc := pc),
         c.ticket + |o.asked|, o.rest, c.asked + o.asked)
  }

  /** After `k` steps the task has landed with `o`. */
  ghost predicate Lands(s: Setting, z: Limit, c: Solo, o: E.Out, k: nat, pc: nat) {
    Steps(s, z, c, k) == Landed(c, o, pc)
  }

  /** What every refinement lemma asks of the program, the storage and the tickets. */
  ghost predicate Fit(s: Setting, z: Limit, c: Solo, o: E.Out) {
    ProgramOk(s, |c.task.env|) && Roomy(z, c.task, o.peak) && c.ticket + |o.asked| <= U64_MAX
  }

  lemma Compose(s: Setting, z: Limit, c: Solo, d: Solo, a: nat, e: Solo, b: nat)
    requires Steps(s, z, c, a) == d && Steps(s, z, d, b) == e
    ensures Steps(s, z, c, a + b) == e
  {
    StepsAdd(s, z, c, a, b);
  }

  lemma OneStep(s: Setting, z: Limit, c: Solo)
    ensures Steps(s, z, c, 1) == Step(s, z, c)
  {
    hide Step;
    assert Steps(s, z, Step(s, z, c), 0) == Step(s, z, c);
  }

  // ----- popping a frame -----

  function Below(t: Task): Task
    requires t.stack != []
  {
    t.(stack := t.stack[..|t.stack| - 1])
  }

  function Popped(c: Solo): Solo
    requires c.task.stack != []
  {
    c.(task := Below(c.task))
  }

  /** The task has just ended a part with `o` and `frame` is on top of its stack. */
  ghost predicate Facing(c: Solo, o: E.Out, frame: FrameKind) {
    && c.task.state == Returning(o.result) && c.task.input == Some(o.control)
    && c.task.stack != [] && c.task.stack[|c.task.stack| - 1] == frame
    && c.replies == o.rest
  }

  /** The task that handles the frame: the outcome has been carried one level up. */
  function Handling(s: Setting, c: Solo, o: E.Out): Task
    requires c.task.stack != []
  {
    Below(c.task).(state := Ready, input := Some(E.Carry(s.h, o).control))
  }

  lemma PopStep(s: Setting, z: Limit, c: Solo, o: E.Out, frame: FrameKind)
    requires Facing(c, o, frame)
    ensures var l := PopFrame(s, Handling(s, c, o), frame, E.Carry(s.h, o).result, z.max, Room(z, Below(c.task)));
      Step(s, z, c) == c.(task := Stacks.After(s.h, l))
  {
    hide PopFrame;
  }

  /** A frame with nothing left to start just passes the carried outcome down. */
  lemma PassesDown(s: Setting, z: Limit, c: Solo, o: E.Out, frame: FrameKind, p: E.Out)
    requires Facing(c, o, frame)
    requires PopFrame(s, Handling(s, c, o), frame, E.Carry(s.h, o).result, z.max, Room(z, Below(c.task)))
             == Next(Handling(s, c, o).(state := Returning(p.result)))
    requires p == E.Carry(s.h, E.Plain(o.result, o.control, o.rest)).(result := p.result)
    ensures Lands2(s, z, c, p, 1, c.task.pc)
  {
    PopStep(s, z, c, o, frame);
    OneStep(s, z, c);
    hide PopFrame, Step;
  }

  /** After `k` steps the task has landed with `o`, its top frame gone. */
  ghost predicate Lands2(s: Setting, z: Limit, c: Solo, o: E.Out, k: nat, pc: nat) {
    c.task.stack != [] && Steps(s, z, c, k) == Landed(Popped(c), o, pc)
  }

  // ----- instruction by instruction -----

  /** A task that concludes instruction `n` carries on with what follows it. */
  lemma TailLands(s: Setting, z: Limit, c: Solo, w: E.World, n: nat, o: E.Out, fuel: nat) returns (k: nat, pc: nat)
    requires s.image.Has(n) && fuel > 0 && E.Tail(s, w, n, o, fuel).Some?
    requires c.task.input == Some(o.control) && Within(c.task, w) && c.replies == o.rest
    requires Fit(s, z, c, E.Tail(s, w, n, o, fuel).value)
    ensures Steps(s, z, c.(task := Conclude(s, c.task, n, o.result).task), k) ==
      Landed(c, E.Tail(s, w, n, o, fuel).value, pc)
    decreases fuel, 0
  {
    var r := s.h.influenceResult(o.result, o.control);
    var d := c.(task := Conclude(s, c.task, n, o.result).task);
    if r.Ok? && s.image.nodes[n].next.Some? {
      k, pc := EvalLands(s, z, d, w, s.image.nodes[n].next.value, r.value, fuel - 1);
    } else {
      k, pc := 0, c.task.pc;
    }
  }

  /** The task pops `Finish` and carries on with what follows the instruction. */
  lemma FinishLands(s: Setting, z: Limit, c: Solo, w: E.World, n: nat, o: E.Out, fuel: nat) returns (k: nat, pc: nat)
    requires Facing(c, o, Finish(n)) && s.image.Has(n) && fuel > 0
    requires Within(Below(c.task), w) && E.Tail(s, w, n, E.Carry(s.h, o), fuel).Some?
    requires Fit(s, z, Popped(c), E.Tail(s, w, n, E.Carry(s.h, o), fuel).value)
    ensures Lands2(s, z, c, E.Tail(s, w, n, E.Carry(s.h, o), fuel).value, k, pc)
    decreases fuel, 1
  {
    PopStep(s, z, c, o, Finish(n));
    OneStep(s, z, c);
    hide Step, Unwind;
    var d := c.(task := Handling(s, c, o));
    k, pc := TailLands(s, z, d, w, n, E.Carry(s.h, o), fuel);
    Compose(s, z, c, Step(s, z, c), 1, Landed(d, E.Tail(s, w, n, E.Carry(s.h, o), fuel).value, pc), k);
    k := k + 1;
  }

  lemma EvalLands(s: Setting, z: Limit, c: Solo, w: E.World, n: nat, v: V, fuel: nat) returns (k: nat, pc: nat)
    requires Stands(c.task, w, n, v) && E.Eval(s, w, n, v, c.replies, fuel).Some?
    requires Fit(s, z, c, E.Eval(s, w, n, v, c.replies, fuel).value)
    ensures Lands(s, z, c, E.Eval(s, w, n, v, c.replies, fuel).value, k, pc)
    decreases fuel, 5
  {
    if OpeningOf(s.image.nodes[n].kind, v).Some? {
      k, pc := OpeningLands(s, z, c, w, n, v, fuel);
    } else {
      k, pc := LeafLands(s, z, c, w, n, v, fuel);
    }
  }

  /** Entering a guarded instruction pushes its two frames and stands at its first entry. */
  lemma OpeningSteps(s: Setting, z: Limit, c: Solo, w: E.World, n: nat, v: V)
    requires Stands(c.task, w, n, v) && s.image.Has(n) && OpeningOf(s.image.nodes[n].kind, v).Some?
      && Roomy(z, c.task, 2)
    ensures var o := OpeningOf(s.image.nodes[n].kind, v).value;
      && Stands(Step(s, z, c).task, w, o.entry, v)
      && Step(s, z, c) == c.(task := c.task.(stack := c.task.stack + [Finish(n)] + [o.frame], pc := o.entry))
  {
  }

  /** The parts of a guarded instruction's meaning. */
  lemma OpeningParts(s: Setting, w: E.World, n: nat, v: V, replies: seq<HostEvent>, fuel: nat)
    returns (first: E.Out, second: E.Out, tail: E.Out)
    requires s.image.Has(n) && OpeningOf(s.image.nodes[n].kind, v).Some? && E.Eval(s, w, n, v, replies, fuel).Some?
    ensures var o := OpeningOf(s.image.nodes[n].kind, v).value;
      && fuel > 0
      && E.Eval(s, w, o.entry, v, replies, fuel - 1) == Some(first)
      && E.Resume(s, w, o.frame, first, fuel - 1) == Some(second)
      && E.Tail(s, w, n, E.Carry(s.h, second), fuel) == Some(tail)
      && E.Eval(s, w, n, v, replies, fuel) ==
           Some(E.After(E.Carry(s.h, E.After(E.Deeper(first, 2), E.Deeper(second, 1))), tail))
  {
    var o := OpeningOf(s.image.nodes[n].kind, v).value;
    first := E.Eval(s, w, o.entry, v, replies, fuel - 1).value;
    second := E.Resume(s, w, o.frame, first, fuel - 1).value;
    var both := E.After(E.Deeper(first, 2), E.Deeper(second, 1));
    tail := E.Tail(s, w, n, E.Carry(s.h, both), fuel).value;
    TailSame(s, w, n, E.Carry(s.h, both), E.Carry(s.h, second), fuel);
  }

  lemma OpeningLands(s: Setting, z: Limit, c: Solo, w: E.World, n: nat, v: V, fuel: nat) returns (k: nat, pc: nat)
    requires Stands(c.task, w, n, v) && s.image.Has(n) && OpeningOf(s.image.nodes[n].kind, v).Some?
    requires E.Eval(s, w, n, v, c.replies, fuel).Some? && Fit(s, z, c, E.Eval(s, w, n, v, c.replies, fuel).value)
    ensures Lands(s, z, c, E.Eval(s, w, n, v, c.replies, fuel).value, k, pc)
    decreases fuel, 4
  {
    hide E.Eval, E.Resume, E.Tail, Step, Steps, ProgramOk, OpeningOf;
    var o := OpeningOf(s.image.nodes[n].kind, v).value;
    var first, second, tail := OpeningParts(s, w, n, v, c.replies, fuel);
    OpeningSteps(s, z, c, w, n, v);
    OneStep(s, z, c);
    var c1 := Step(s, z, c);
    var k1, pc1 := EvalLands(s, z, c1, w, o.entry, v, fuel - 1);
    var c2 := Landed(c1, first, pc1);
    var k2, pc2 := ResumeLands(s, z, c2, w, o.frame, first, fuel - 1);
    var c3 := Landed(Popped(c2), second, pc2);
    assert c3.task.stack == c.task.stack + [Finish(n)] && Below(c3.task).stack == c.task.stack;
    var k3, pc3 := FinishLands(s, z, c3, w, n, second, fuel);
    var c4 := Landed(Popped(c3), tail, pc3);
    assert c.asked + first.asked + second.asked + tail.asked == c.asked + (first.asked + second.asked + tail.asked);
    Compose(s, z, c, c1, 1, c2, k1);
    Compose(s, z, c, c2, 1 + k1, c3, k2);
    Compose(s, z, c, c3, 1 + k1 + k2, c4, k3);
    k, pc := 1 + k1 + k2 + k3, pc3;
  }

  /** What follows depends only on the result, its control and the replies left. */
  lemma TailSame(s: Setting, w: E.World, n: nat, a: E.Out, b: E.Out, fuel: nat)
    requires s.image.Has(n) && fuel > 0
    requires a.result == b.result && a.control == b.control && a.rest == b.rest
    ensures E.Tail(s, w, n, a, fuel) == E.Tail(s, w, n, b, fuel)
  {
  }

  /** An instruction that concludes at once. */
  lemma SimpleLands(s: Setting, z: Limit, c: Solo, w: E.World, n: nat, v: V, r: Res, fuel: nat)
    returns (k: nat, pc: nat)
    requires Stands(c.task, w, n, v) && s.image.Has(n) && fuel > 0
    requires Begin(s, c.task, z.max, Room(z, c.task), c.ticket) == Conclude(s, Armed(s, c.task), n, r)
    requires var o := E.Plain(r, Armed(s, c.task).input.value, c.replies);
      E.Tail(s, w, n, o, fuel).Some? && Fit(s, z, c, E.Tail(s, w, n, o, fuel).value)
    ensures var o := E.Plain(r, Armed(s, c.task).input.value, c.replies);
      Lands(s, z, c, E.Tail(s, w, n, o, fuel).value, k, pc)
    decreases fuel, 1
  {
    hide E.Tail, Begin, Steps;
    var o := E.Plain(r, Armed(s, c.task).input.value, c.replies);
    var d := c.(task := Armed(s, c.task));
    OneStep(s, z, c);
    k, pc := TailLands(s, z, d, w, n, o, fuel);
    Compose(s, z, c, Step(s, z, c), 1, Landed(d, E.Tail(s, w, n, o, fuel).value, pc), k);
    k := k + 1;
  }

  /** A part that held nothing and asked nothing adds nothing. */
  lemma AfterPlain(r: Res, control: V, replies: seq<HostEvent>, t: E.Out)
    ensures E.After(E.Plain(r, control, replies), t) == t
  {
  }

  lemma LeafLands(s: Setting, z: Limit, c: Solo, w: E.World, n: nat, v: V, fuel: nat) returns (k: nat, pc: nat)
    requires Stands(c.task, w, n, v) && s.image.Has(n) && OpeningOf(s.image.nodes[n].kind, v).None?
    requires E.Eval(s, w, n, v, c.replies, fuel).Some? && Fit(s, z, c, E.Eval(s, w, n, v, c.replies, fuel).value)
    ensures Lands(s, z, c, E.Eval(s, w, n, v, c.replies, fuel).value, k, pc)
    decreases fuel, 4
  {
    var kind := s.image.nodes[n].kind;
    var control := s.h.retainControl(v);
    assert E.Eval(s, w, n, v, c.replies, fuel) == E.EvalLeaf(s, w, n, kind, v, c.replies, fuel);
    hide E.Eval, E.Tail, Steps, Conclude;
    match kind
    case Literal(x) => k, pc := ConcludingLands(s, z, c, w, n, v, Ok(s.h.influence(x, v)), fuel);
    case Input => k, pc := ConcludingLands(s, z, c, w, n, v, Ok(v), fuel);
    case Fail(e) => k, pc := ConcludingLands(s, z, c, w, n, v, Err(e), fuel);
    case Load(slot) =>
      if slot < |w.env| && w.env[slot].Some? {
        k, pc := ConcludingLands(s, z, c, w, n, v, Ok(s.h.influence(w.env[slot].value, v)), fuel);
      } else {
        OneStep(s, z, c);
        k, pc := 1, n;
      }
    case If(yes, no) =>
      if s.h.truth(v).Ok? {
        k, pc := CalledLands(s, z, c, w, n, if s.h.truth(v).value then yes else no, v, fuel);
      } else {
        k, pc := ConcludingLands(s, z, c, w, n, v, Err(s.h.truth(v).error), fuel);
      }
    case Call(entry) => k, pc := CalledLands(s, z, c, w, n, entry, v, fuel);
    case Request(port) => k, pc := AskedLands(s, z, c, w, n, port, None, v, fuel);
    case Scope(port, body) => k, pc := AskedLands(s, z, c, w, n, port, Some(body), v, fuel);
  }

  lemma ConcludingLands(s: Setting, z: Limit, c: Solo, w: E.World, n: nat, v: V, r: Res, fuel: nat)
    returns (k: nat, pc: nat)
    requires Stands(c.task, w, n, v) && s.image.Has(n) && fuel > 0
    requires !s.image.nodes[n].kind.Request? && !s.image.nodes[n].kind.Scope?
    requires Begin(s, c.task, z.max, Room(z, c.task), c.ticket) == Conclude(s, Armed(s, c.task), n, r)
    requires var o := E.Plain(r, s.h.retainControl(v), c.replies);
      E.Ended(s, w, n, o, fuel).Some? && Fit(s, z, c, E.Ended(s, w, n, o, fuel).value)
    ensures Lands(s, z, c, E.Ended(s, w, n, E.Plain(r, s.h.retainControl(v), c.replies), fuel).value, k, pc)
    decreases fuel, 2
  {
    hide E.Tail, Begin, Steps, Conclude;
    var t := E.Tail(s, w, n, E.Plain(r, s.h.retainControl(v), c.replies), fuel).value;
    AfterPlain(r, s.h.retainControl(v), c.replies, t);
    k, pc := SimpleLands(s, z, c, w, n, v, r, fuel);
  }

  /** Calling an entry pushes `Finish` and stands at the entry. */
  lemma CallSteps(s: Setting, z: Limit, c: Solo, w: E.World, n: nat, entry: nat, v: V)
    requires Stands(c.task, w, n, v) && s.image.Has(n) && Roomy(z, c.task, 1)
    requires var kind := s.image.nodes[n].kind;
      kind == Call(entry) || (kind.If? && s.h.truth(v).Ok? && entry == if s.h.truth(v).value then kind.yes else kind.no)
    ensures Stands(Step(s, z, c).task, w, entry, v)
    ensures Step(s, z, c) == c.(task := c.task.(stack := c.task.stack + [Finish(n)], pc := entry))
  {
  }

  lemma CalledLands(s: Setting, z: Limit, c: Solo, w: E.World, n: nat, entry: nat, v: V, fuel: nat)
    returns (k: nat, pc: nat)
    requires Stands(c.task, w, n, v) && s.image.Has(n) && fuel > 0
    requires var kind := s.image.nodes[n].kind;
      kind == Call(entry) || (kind.If? && s.h.truth(v).Ok? && entry == if s.h.truth(v).value then kind.yes else kind.no)
    requires E.Called(s, w, n, entry, v, c.replies, fuel).Some?
      && Fit(s, z, c, E.Called(s, w, n, entry, v, c.replies, fuel).value)
    ensures Lands(s, z, c, E.Called(s, w, n, entry, v, c.replies, fuel).value, k, pc)
    decreases fuel, 3
  {
    hide E.Eval, E.Tail, Step, Steps, ProgramOk;
    var inner := E.Eval(s, w, entry, v, c.replies, fuel - 1).value;
    TailSame(s, w, n, E.Carry(s.h, E.Deeper(inner, 1)), E.Carry(s.h, inner), fuel);
    var tail := E.Tail(s, w, n, E.Carry(s.h, inner), fuel).value;
    CallSteps(s, z, c, w, n, entry, v);
    OneStep(s, z, c);
    var c1 := Step(s, z, c);
    var k1, pc1 := EvalLands(s, z, c1, w, entry, v, fuel - 1);
    var c2 := Landed(c1, inner, pc1);
    assert Below(c2.task).stack == c.task.stack;
    var k2, pc2 := FinishLands(s, z, c2, w, n, inner, fuel);
    var c3 := Landed(Popped(c2), tail, pc2);
    assert c.asked + inner.asked + tail.asked == c.asked + (inner.asked + tail.asked);
    Compose(s, z, c, c1, 1, c2, k1);
    Compose(s, z, c, c2, 1 + k1, c3, k2);
    k, pc := 1 + k1 + k2, pc2;
  }

  // ----- host calls -----

  /** A task waiting at `n` drops the replies that do not answer it. */
  lemma {:induction false} RefusedDrop(s: Setting, z: Limit, c: Solo, scope: bool) returns (k: nat)
    requires c.task.state.Waiting? && s.image.Has(c.task.state.node)
    requires scope == s.image.nodes[c.task.state.node].kind.Scope?
    requires E.Accepting(scope, c.replies).Some?
    ensures Steps(s, z, c, k) == c.(replies := E.Accepting(scope, c.replies).value)
    decreases |c.replies|
  {
    if c.replies[0].Enter? && !scope {
      var d := c.(replies := c.replies[1..]);
      k := RefusedDrop(s, z, d, scope);
      OneStep(s, z, c);
      Compose(s, z, c, d, 1, d.(replies := E.Accepting(scope, d.replies).value), k);
      k := k + 1;
    } else {
      k := 0;
    }
  }

  lemma AskSteps(s: Setting, z: Limit, c: Solo, w: E.World, n: nat, port: nat, v: V)
    requires Stands(c.task, w, n, v) && s.image.Has(n) && port < s.image.imports && c.ticket < U64_MAX
    requires var kind := s.image.nodes[n].kind; (kind.Request? || kind.Scope?) && kind.port == port
    ensures Step(s, z, c) == Solo(
      c.task.(state := Waiting(c.ticket + 1, n)), c.ticket + 1, c.replies,
      c.asked + [E.Question(port, v, w.context, s.image.nodes[n].position, w.cleanup)])
  {
  }

  lemma AskedLands(s: Setting, z: Limit, c: Solo, w: E.World, n: nat, port: nat, body: Option<nat>, v: V, fuel: nat)
    returns (k: nat, pc: nat)
    requires Stands(c.task, w, n, v) && s.image.Has(n) && fuel > 0
    requires var kind := s.image.nodes[n].kind;
      (kind == Request(port) && body.None?) || (body.Some? && kind == Scope(port, body.value))
    requires E.Asked(s, w, n, port, body, v, c.replies, fuel).Some?
    requires Fit(s, z, c, E.Asked(s, w, n, port, body, v, c.replies, fuel).value)
    ensures Lands(s, z, c, E.Asked(s, w, n, port, body, v, c.replies, fuel).value, k, pc)
    decreases fuel, 3
  {
    hide E.Eval, E.Tail, Step, Steps, E.Accepting, ProgramOk;
    var taken := E.Accepting(body.Some?, c.replies).value;
    var q := E.Question(port, v, w.context, s.image.nodes[n].position, w.cleanup);
    AskSteps(s, z, c, w, n, port, v);
    OneStep(s, z, c);
    var c1 := Step(s, z, c);
    var k1 := RefusedDrop(s, z, c1, body.Some?);
    var c2 := c1.(replies := taken);
    Compose(s, z, c, c1, 1, c2, k1);
    var k2, p := 0, E.Plain(Ok(v), v, []);
    if taken[0].Complete? {
      TailSame(s, w, n,
        E.Out(taken[0].result, s.h.influence(v, s.h.retainResult(taken[0].result)), [q], taken[1..], 0),
        E.Plain(taken[0].result, s.h.influence(v, s.h.retainResult(taken[0].result)), taken[1..]), fuel);
      p := E.Tail(s, w, n, E.Plain(taken[0].result, s.h.influence(v, s.h.retainResult(taken[0].result)), taken[1..]),
        fuel).value;
      k2, pc := CompleteLands(s, z, c2, w, n, v, fuel);
    } else {
      k2, pc, p := EnterLands(s, z, c2, w, n, body.value, v, fuel, q);
    }
    assert c.asked + [q] + p.asked == c.asked + ([q] + p.asked);
    Compose(s, z, c, c2, 1 + k1, Landed(c2, p, pc), k2);
    k := 1 + k1 + k2;
  }

  /** A waiting task answered with a result concludes the call. */
  lemma CompleteLands(s: Setting, z: Limit, c: Solo, w: E.World, n: nat, v: V, fuel: nat) returns (k: nat, pc: nat)
    requires c.task.state.Waiting? && c.task.state.node == n && c.task.input == Some(v) && Within(c.task, w)
    requires s.image.Has(n) && fuel > 0 && c.replies != [] && c.replies[0].Complete?
    requires var o := E.Plain(c.replies[0].result, s.h.influence(v, s.h.retainResult(c.replies[0].result)),
      c.replies[1..]);
      E.Tail(s, w, n, o, fuel).Some? && Fit(s, z, c, E.Tail(s, w, n, o, fuel).value)
    ensures var o := E.Plain(c.replies[0].result, s.h.influence(v, s.h.retainResult(c.replies[0].result)),
      c.replies[1..]);
      Lands(s, z, c, E.Tail(s, w, n, o, fuel).value, k, pc)
    decreases fuel, 1
  {
    hide E.Tail, Steps, Conclude;
    var r := c.replies[0].result;
    var o := E.Plain(r, s.h.influence(v, s.h.retainResult(r)), c.replies[1..]);
    var d := c.(task := Charged(s.h, c.task, s.h.retainResult(r)), replies := c.replies[1..]);
    OneStep(s, z, c);
    k, pc := TailLands(s, z, d, w, n, o, fuel);
    Compose(s, z, c, Step(s, z, c), 1, Landed(d, E.Tail(s, w, n, o, fuel).value, pc), k);
    k := k + 1;
  }

  lemma EnterSteps(s: Setting, z: Limit, c: Solo, w: E.World, n: nat, body: nat, v: V)
    requires c.task.state.Waiting? && c.task.state.node == n && c.task.input == Some(v) && Within(c.task, w)
    requires s.image.Has(n) && s.image.nodes[n].kind.Scope? && s.image.nodes[n].kind.body == body
    requires c.replies != [] && c.replies[0].Enter? && Roomy(z, c.task, 2)
    ensures var x := c.replies[0].context;
      var t := c.task.(stack := c.task.stack + [Finish(n)] + [Context(w.context)], context := x, pc := body,
        state := Ready);
      Step(s, z, c) == c.(task := t, replies := c.replies[1..]) && Stands(t, w.(context := x), body, v)
  {
  }

  /** A waiting scope answered with a context runs its body there and comes back. */
  lemma EnterLands(s: Setting, z: Limit, c: Solo, w: E.World, n: nat, body: nat, v: V, fuel: nat, q: E.Question)
    returns (k: nat, pc: nat, p: E.Out)
    requires c.task.state.Waiting? && c.task.state.node == n && c.task.input == Some(v) && Within(c.task, w)
    requires s.image.Has(n) && s.image.nodes[n].kind.Scope? && s.image.nodes[n].kind.body == body && fuel > 0
    requires c.replies != [] && c.replies[0].Enter?
    requires E.Eval(s, w.(context := c.replies[0].context), body, v, c.replies[1..], fuel - 1).Some?
    requires var inner := E.Eval(s, w.(context := c.replies[0].context), body, v, c.replies[1..], fuel - 1).value;
      var o := E.Carry(s.h, E.Carry(s.h, E.After(E.Out(Ok(v), v, [q], c.replies[1..], 0), E.Deeper(inner, 2))));
      && E.Tail(s, w, n, o, fuel).Some?
      && ProgramOk(s, |c.task.env|) && Roomy(z, c.task, E.After(o, E.Tail(s, w, n, o, fuel).value).peak)
      && c.ticket + |inner.asked| + |E.Tail(s, w, n, o, fuel).value.asked| <= U64_MAX
    ensures var inner := E.Eval(s, w.(context := c.replies[0].context), body, v, c.replies[1..], fuel - 1).value;
      var o := E.Carry(s.h, E.Carry(s.h, E.After(E.Out(Ok(v), v, [q], c.replies[1..], 0), E.Deeper(inner, 2))));
      var tail := E.Tail(s, w, n, o, fuel).value;
      && p.asked == inner.asked + tail.asked && p.result == tail.result && p.control == tail.control
        && p.rest == tail.rest
      && Lands(s, z, c, p, k, pc)
    decreases fuel, 2
  {
    hide E.Eval, E.Tail, Step, Steps, ProgramOk;
    var x := c.replies[0].context;
    var inner := E.Eval(s, w.(context := x), body, v, c.replies[1..], fuel - 1).value;
    var mid := E.Carry(s.h, E.Plain(inner.result, inner.control, inner.rest));
    var o := E.Carry(s.h, E.Carry(s.h, E.After(E.Out(Ok(v), v, [q], c.replies[1..], 0), E.Deeper(inner, 2))));
    assert c.task.stack + [Finish(n)] + [Context(w.context)] == c.task.stack + ([Finish(n)] + [Context(w.context)]);
    TailSame(s, w, n, o, E.Carry(s.h, mid), fuel);
    var tail := E.Tail(s, w, n, o, fuel).value;
    EnterSteps(s, z, c, w, n, body, v);
    OneStep(s, z, c);
    var c1 := Step(s, z, c);
    var k1, pc1 := EvalLands(s, z, c1, w.(context := x), body, v, fuel - 1);
    var c2 := Landed(c1, inner, pc1);
    var home := c2.(task := c2.task.(stack := c.task.stack, context := w.context));
    var k2, pc2 := ScopeLands(s, z, c2, home, w, n, inner, fuel);
    var c3 := Landed(home, tail, pc2);
    p := tail.(asked := inner.asked + tail.asked);
    assert c.asked + inner.asked + tail.asked == c.asked + (inner.asked + tail.asked);
    Compose(s, z, c, c1, 1, c2, k1);
    Compose(s, z, c, c2, 1 + k1, c3, k2);
    k, pc := 1 + k1 + k2, pc2;
  }

  /** A scope whose body has ended gives its context back and carries on with what follows. */
  lemma ScopeLands(s: Setting, z: Limit, c: Solo, home: Solo, w: E.World, n: nat, inner: E.Out, fuel: nat)
    returns (k: nat, pc: nat)
    requires c.task.stack == home.task.stack + [Finish(n)] + [Context(w.context)]
      && Facing(c, inner, Context(w.context))
    requires home == c.(task := c.task.(stack := home.task.stack, context := w.context))
    requires s.image.Has(n) && fuel > 0 && Within(home.task, w)
    requires var mid := E.Carry(s.h, E.Plain(inner.result, inner.control, inner.rest));
      E.Tail(s, w, n, E.Carry(s.h, mid), fuel).Some? && Fit(s, z, home, E.Tail(s, w, n, E.Carry(s.h, mid), fuel).value)
    ensures var mid := E.Carry(s.h, E.Plain(inner.result, inner.control, inner.rest));
      Steps(s, z, c, k) == Landed(home, E.Tail(s, w, n, E.Carry(s.h, mid), fuel).value, pc)
    decreases fuel, 2, 1
  {
    hide E.Eval, E.Tail, Step, Steps, ProgramOk;
    var mid := E.Carry(s.h, E.Plain(inner.result, inner.control, inner.rest));
    var tail := E.Tail(s, w, n, E.Carry(s.h, mid), fuel).value;
    assert Below(c.task).stack == home.task.stack + [Finish(n)];
    ContextPops(s, z, c, inner, w.context);
    var d := Landed(Popped(c), mid, c.task.pc).(task := Landed(Popped(c), mid, c.task.pc).task.(context := w.context));
    assert Below(d.task).stack == home.task.stack;
    k, pc := FinishLands(s, z, d, w, n, mid, fuel);
    Compose(s, z, c, d, 1, Landed(home, tail, pc), k);
    k := k + 1;
  }

  lemma ContextPops(s: Setting, z: Limit, c: Solo, o: E.Out, context: nat)
    requires Facing(c, o, Context(context))
    ensures var mid := E.Carry(s.h, E.Plain(o.result, o.control, o.rest));
      var d := Landed(Popped(c), mid, c.task.pc);
      Steps(s, z, c, 1) == d.(task := d.task.(context := context))
  {
    PopStep(s, z, c, o, Context(context));
    OneStep(s, z, c);
    hide Step, Steps;
  }

  // ----- frame by frame -----

  /** A frame that starts an entry in its own place. */
  lemma StartsLands(
    s: Setting, z: Limit, c: Solo, w: E.World, frame: FrameKind, o: E.Out, n: nat, v: V, fuel: nat)
      returns (k: nat, pc: nat)
    requires Facing(c, o, frame) && Within(Below(c.task), w)
    requires PopFrame(s, Handling(s, c, o), frame, E.Carry(s.h, o).result, z.max, Room(z, Below(c.task)))
             == Next(Start(Handling(s, c, o), n, v))
    requires E.Eval(s, w, n, v, o.rest, fuel).Some? && Fit(s, z, Popped(c), E.Eval(s, w, n, v, o.rest, fuel).value)
    ensures Lands2(s, z, c, E.Eval(s, w, n, v, o.rest, fuel).value, k, pc)
    decreases fuel, 6
  {
    hide E.Eval, PopFrame, Step, Steps, ProgramOk;
    PopStep(s, z, c, o, frame);
    OneStep(s, z, c);
    var c1 := Step(s, z, c);
    k, pc := EvalLands(s, z, c1, w, n, v, fuel);
    Compose(s, z, c, c1, 1, Landed(c1, E.Eval(s, w, n, v, o.rest, fuel).value, pc), k);
    k := k + 1;
  }

  /** A frame that puts `above` in its place, starts an entry, and hands its outcome to `above`. */
  lemma LoopLands(
    s: Setting, z: Limit, c: Solo, w: E.World, frame: FrameKind, o: E.Out, above: FrameKind, n: nat, v: V, fuel: nat)
    returns (k: nat, pc: nat)
    requires Facing(c, o, frame) && Within(Below(c.task), w)
    requires PopFrame(s, Handling(s, c, o), frame, E.Carry(s.h, o).result, z.max, Room(z, Below(c.task)))
             == Next(Start(Push(Handling(s, c, o), above), n, v))
    requires E.Eval(s, w, n, v, o.rest, fuel).Some?
      && E.Resume(s, w, above, E.Eval(s, w, n, v, o.rest, fuel).value, fuel).Some?
    requires var inner := E.Eval(s, w, n, v, o.rest, fuel).value;
      Fit(s, z, Popped(c), E.After(E.Deeper(inner, 1), E.Resume(s, w, above, inner, fuel).value))
    ensures var inner := E.Eval(s, w, n, v, o.rest, fuel).value;
      Lands2(s, z, c, E.After(E.Deeper(inner, 1), E.Resume(s, w, above, inner, fuel).value), k, pc)
    decreases fuel, 6
  {
    hide E.Eval, E.Resume, PopFrame, Step, Steps, ProgramOk;
    var inner := E.Eval(s, w, n, v, o.rest, fuel).value;
    var again := E.Resume(s, w, above, inner, fuel).value;
    PopStep(s, z, c, o, frame);
    OneStep(s, z, c);
    var c1 := Step(s, z, c);
    var k1, pc1 := EvalLands(s, z, c1, w, n, v, fuel);
    var c2 := Landed(c1, inner, pc1);
    assert Below(c2.task).stack == Below(c.task).stack;
    var k2, pc2 := ResumeLands(s, z, c2, w, above, inner, fuel);
    var c3 := Landed(Popped(c2), again, pc2);
    assert c.asked + inner.asked + again.asked == c.asked + (inner.asked + again.asked);
    Compose(s, z, c, c1, 1, c2, k1);
    Compose(s, z, c, c2, 1 + k1, c3, k2);
    k, pc := 1 + k1 + k2, pc2;
  }

  /** The body of a `Let` runs with the slot bound and leaves the slot as it was. */
  lemma BindLands(s: Setting, z: Limit, c: Solo, w: E.World, slot: nat, body: nat, o: E.Out, fuel: nat)
    returns (k: nat, pc: nat)
    requires Facing(c, o, Bind(slot, body)) && Within(Below(c.task), w) && slot < |w.env|
    requires E.Carry(s.h, o).result.Ok?
    requires var x := E.Carry(s.h, o).result.value;
      var inner := E.Eval(s, w.(env := w.env[slot := Some(x)]), body, x, o.rest, fuel);
      inner.Some? && Fit(s, z, Popped(c), E.Carry(s.h, E.Deeper(inner.value, 1)))
    ensures var x := E.Carry(s.h, o).result.value;
      var inner := E.Eval(s, w.(env := w.env[slot := Some(x)]), body, x, o.rest, fuel).value;
      Lands2(s, z, c, E.Carry(s.h, E.Deeper(inner, 1)), k, pc)
    decreases fuel, 6
  {
    hide E.Eval, Step, Steps, ProgramOk;
    var x := E.Carry(s.h, o).result.value;
    var inside := w.(env := w.env[slot := Some(x)]);
    var inner := E.Eval(s, inside, body, x, o.rest, fuel).value;
    PopStep(s, z, c, o, Bind(slot, body));
    OneStep(s, z, c);
    var c1 := Step(s, z, c);
    var k1, pc1 := EvalLands(s, z, c1, inside, body, x, fuel);
    var c2 := Landed(c1, inner, pc1);
    assert Below(c2.task).stack == Below(c.task).stack;
    PopStep(s, z, c2, inner, Unbind(slot, w.env[slot]));
    OneStep(s, z, c2);
    assert w.env[slot := Some(x)][slot := w.env[slot]] == w.env;
    Compose(s, z, c, c1, 1, c2, k1);
    Compose(s, z, c, c2, 1 + k1, Step(s, z, c2), 1);
    k, pc := 2 + k1, pc1;
  }

  /** A cleanup runs whatever the body's outcome, and the body's failure wins. */
  lemma CleanupLands(s: Setting, z: Limit, c: Solo, w: E.World, cleanup: nat, input: V, o: E.Out, fuel: nat)
    returns (k: nat, pc: nat)
    requires Facing(c, o, FinallyFrame(cleanup, input)) && Within(Below(c.task), w)
    requires var inner := E.Eval(s, w.(cleanup := true), cleanup, input, o.rest, fuel);
      inner.Some? && Fit(s, z, Popped(c), E.Deeper(inner.value, 1))
    ensures var r := E.Carry(s.h, o).result;
      var d := E.Carry(s.h, E.Deeper(E.Eval(s, w.(cleanup := true), cleanup, input, o.rest, fuel).value, 1));
      Lands2(s, z, c, d.(result := s.h.influenceResult(Settled(r, d.result), s.h.retainResult(r))), k, pc)
    decreases fuel, 6
  {
    hide E.Eval, Step, Steps, ProgramOk;
    var inside := w.(cleanup := true);
    var inner := E.Eval(s, inside, cleanup, input, o.rest, fuel).value;
    PopStep(s, z, c, o, FinallyFrame(cleanup, input));
    OneStep(s, z, c);
    var c1 := Step(s, z, c);
    var k1, pc1 := EvalLands(s, z, c1, inside, cleanup, input, fuel);
    var c2 := Landed(c1, inner, pc1);
    assert Below(c2.task).stack == Below(c.task).stack;
    PopStep(s, z, c2, inner, Cleaned(E.Carry(s.h, o).result));
    OneStep(s, z, c2);
    Compose(s, z, c, c1, 1, c2, k1);
    Compose(s, z, c, c2, 1 + k1, Step(s, z, c2), 1);
    k, pc := 2 + k1, pc1;
  }

  lemma ResumeLands(s: Setting, z: Limit, c: Solo, w: E.World, frame: FrameKind, o: E.Out, fuel: nat)
    returns (k: nat, pc: nat)
    requires Facing(c, o, frame) && Within(Below(c.task), w) && E.Resume(s, w, frame, o, fuel).Some?
    requires Fit(s, z, Popped(c), E.Resume(s, w, frame, o, fuel).value)
    ensures Lands2(s, z, c, E.Resume(s, w, frame, o, fuel).value, k, pc)
    decreases fuel, 4
  {
    hide E.Eval, Step, Steps, ProgramOk;
    var d := E.Carry(s.h, E.Plain(o.result, o.control, o.rest));
    k, pc := 1, c.task.pc;
    match frame
    case ThenFrame(after) =>
      if d.result.Ok? {
        k, pc := StartsLands(s, z, c, w, frame, o, after, d.result.value, fuel - 1);
      } else {
        PassesDown(s, z, c, o, frame, d);
      }
    case CatchFrame(recover) =>
      if d.result.Err? {
        k, pc := StartsLands(s, z, c, w, frame, o, recover, s.h.influence(s.h.errorValue(d.result.error), d.control),
          fuel - 1);
      } else {
        PassesDown(s, z, c, o, frame, d);
      }
    case FinallyFrame(cleanup, input) => k, pc := CleanupLands(s, z, c, w, cleanup, input, o, fuel - 1);
    case Choose(yes, no, input) =>
      if d.result.Ok? && s.h.truth(d.result.value).Ok? {
        var entry := if s.h.truth(d.result.value).value then yes else no;
        k, pc := StartsLands(s, z, c, w, frame, o, entry, s.h.influence(input, d.result.value), fuel - 1);
      } else {
        PassesDown(s, z, c, o, frame, E.Resume(s, w, frame, o, fuel).value);
      }
    case Bind(slot, body) =>
      if d.result.Ok? {
        k, pc := BindLands(s, z, c, w, slot, body, o, fuel - 1);
      } else {
        PassesDown(s, z, c, o, frame, d);
      }
    case Condition(condition, body, left, value) =>
      if d.result.Ok? && s.h.truth(d.result.value) == Ok(true) && left > 0 {
        k, pc := LoopLands(s, z, c, w, frame, o, Iteration(condition, body, left - 1), body,
                           s.h.influence(value, d.result.value), fuel - 1);
      } else {
        PassesDown(s, z, c, o, frame, E.Resume(s, w, frame, o, fuel).value);
      }
    case Iteration(condition, body, left) =>
      if d.result.Ok? {
        k, pc := LoopLands(s, z, c, w, frame, o, Condition(condition, body, left, d.result.value), condition,
                           d.result.value, fuel - 1);
      } else {
        PassesDown(s, z, c, o, frame, d);
      }
  }
}
