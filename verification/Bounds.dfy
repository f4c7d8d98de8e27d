/** Static storage bounds hold for every run: a machine given the storage its image
    needs never runs out of it. The bounds are those of crates/xolotl-core/src/analysis.rs. */
module Bounds {
  import opened Program
  import opened Machine
  import opened Stacks
  import opened Forest
  import opened Runs

  /** What is being counted: either frames, or a fixed cost per live task. */
  datatype Count = Count(base: nat, frames: bool)
  type Metric = k: Count | k.frames ==> k.base == 0 witness Count(0, true)

  const TASKS: Metric := Count(1, false)
  const POOL: Metric := Count(0, true)

  function W(k: Metric, depth: nat): nat { if k.frames then depth else 0 }

  /** An instruction's own need covers everything it may start on its own stack. */
  predicate Covered(k: Metric, need: nat -> nat, node: Node, v: nat) {
    && k.base <= v
    && (node.next.Some? ==> need(node.next.value) <= v)
    && match node.kind
       case Then(a, b) => W(k, 2) + need(a) <= v && W(k, 1) + need(b) <= v
       case Catch(a, b) => W(k, 2) + need(a) <= v && W(k, 1) + need(b) <= v
       case Finally(a, b) => W(k, 2) + need(a) <= v && W(k, 2) + need(b) <= v
       case If(a, b) => W(k, 1) + need(a) <= v && W(k, 1) + need(b) <= v
       case Branch(c, a, b) => W(k, 2) + need(c) <= v && W(k, 1) + need(a) <= v && W(k, 1) + need(b) <= v
       case Let(_, a, b) => W(k, 2) + need(a) <= v && W(k, 2) + need(b) <= v
       case While(a, b, _) => W(k, 2) + need(a) <= v && W(k, 2) + need(b) <= v
       case Call(a) => W(k, 1) + need(a) <= v
       case Scope(_, a) => W(k, 2) + need(a) <= v
       case _ => true
  }

  /** A table of needs that is consistent wherever it stays within `cap`. */
  ghost predicate Table(image: Image, k: Metric, need: nat -> nat, cap: nat) {
    forall n :: 0 <= n < |image.nodes| && need(n) <= cap ==> Covered(k, need, image.nodes[n], need(n))
  }

  /** A fork's need also covers both branches at the same time. */
  ghost predicate ForkTable(image: Image, k: Metric, need: nat -> nat, cap: nat) {
    forall n :: 0 <= n < |image.nodes| && need(n) <= cap && image.nodes[n].kind.Fork? ==>
      k.base + need(image.nodes[n].kind.left) + need(image.nodes[n].kind.right) <= need(n)
  }

  // ----- what a task may still use -----

  function NextNeed(image: Image, need: nat -> nat, n: nat): nat {
    if n < |image.nodes| && image.nodes[n].next.Some? then need(image.nodes[n].next.value) else 0
  }

  /** What resuming a frame with `d` frames below it may use. */
  function FrameNeed(image: Image, k: Metric, need: nat -> nat, f: FrameKind, d: nat): nat {
    match f
    case Finish(n) => W(k, d) + NextNeed(image, need, n)
    case Continuation(n, _) => W(k, d) + NextNeed(image, need, n)
    case ThenFrame(n) => W(k, d) + need(n)
    case CatchFrame(n) => W(k, d) + need(n)
    case FinallyFrame(n, _) => W(k, d + 1) + need(n)
    case Condition(c, b, _, _) => W(k, d + 1) + Max(need(c), need(b))
    case Iteration(c, b, _) => W(k, d + 1) + Max(need(c), need(b))
    case Choose(y, n, _) => W(k, d) + Max(need(y), need(n))
    case Bind(_, b) => W(k, d + 1) + need(b)
    case _ => 0
  }

  function StackNeed(image: Image, k: Metric, need: nat -> nat, stack: seq<FrameKind>): nat {
    if stack == [] then 0
    else
      var top := |stack| - 1;
      Max(StackNeed(image, k, need, stack[..top]), FrameNeed(image, k, need, stack[top], top))
  }

  function StateNeed(image: Image, k: Metric, need: nat -> nat, t: Task): nat {
    match t.state
    case Ready => W(k, |t.stack|) + need(t.pc)
    case Waiting(_, n) => W(k, |t.stack|) + need(n)
    case Joining(j) => W(k, |t.stack|) + NextNeed(image, need, j.node)
    case _ => 0
  }

  /** What a live task uses now. */
  function Use(k: Metric, t: Task): nat { k.base + W(k, |t.stack|) }

  /** The most a task may use from here on, not counting its children. */
  function Cost(image: Image, k: Metric, need: nat -> nat, t: Task): nat {
    Max(Use(k, t), Max(StackNeed(image, k, need, t.stack), StateNeed(image, k, need, t)))
  }

  lemma StackNeedPush(image: Image, k: Metric, need: nat -> nat, t: Task, f: FrameKind)
    ensures StackNeed(image, k, need, Push(t, f).stack) ==
            Max(StackNeed(image, k, need, t.stack), FrameNeed(image, k, need, f, |t.stack|))
  {
    assert Push(t, f).stack[..|t.stack|] == t.stack;
  }

  // ----- no local step raises the cost -----

  lemma ConcludeCost(s: Setting, k: Metric, need: nat -> nat, t: Task, node: nat, r: Res, bound: nat)
    requires s.image.Has(node)
    requires Use(k, t) <= bound && StackNeed(s.image, k, need, t.stack) <= bound
    requires W(k, |t.stack|) + NextNeed(s.image, need, node) <= bound
    ensures Cost(s.image, k, need, Conclude(s, t, node, r).task) <= bound
  {
  }

  /** Frames an instruction pushes before it starts its first entry. */
  function Pushes(kind: NodeKind): nat {
    match kind
    case Then(_, _) => 2
    case Catch(_, _) => 2
    case Finally(_, _) => 2
    case Branch(_, _, _) => 2
    case Let(_, _, _) => 2
    case While(_, _, _) => 2
    case If(_, _) => 1
    case Call(_) => 1
    case _ => 0
  }

  lemma OpeningCost(image: Image, k: Metric, need: nat -> nat, pc: nat, input: V, d: nat, bound: nat)
    requires image.Has(pc) && Covered(k, need, image.nodes[pc], need(pc)) && W(k, d) + need(pc) <= bound
    ensures var kind := image.nodes[pc].kind;
      var o := OpeningOf(kind, input);
      && FrameNeed(image, k, need, Finish(pc), d) <= bound
      && k.base + W(k, d + Pushes(kind)) <= bound
      && (o.Some? ==>
        FrameNeed(image, k, need, o.value.frame, d + 1) <= bound && W(k, d + 2) + need(o.value.entry) <= bound)
  {
  }

  lemma BeginCost(s: Setting, k: Metric, need: nat -> nat, cap: nat, t: Task, max: nat, room: int, ticket: nat)
    requires t.state.Ready? && s.image.Has(t.pc) && t.input.Some?
    requires Table(s.image, k, need, cap) && Cost(s.image, k, need, t) <= cap
    ensures var l := Begin(s, t, max, room, ticket);
      !l.Spawn? ==> Cost(s.image, k, need, After(s.h, l)) <= Cost(s.image, k, need, t)
  {
    hide StackNeed, Covered, BeginKind, Enter2, OpeningOf, FrameNeed, After;
    var bound := Cost(s.image, k, need, t);
    var kind := s.image.nodes[t.pc].kind;
    var kept := Armed(s, t);
    var input := t.input.value;
    assert Covered(k, need, s.image.nodes[t.pc], need(t.pc));
    OpeningCost(s.image, k, need, t.pc, input, |t.stack|, bound);
    StackNeedPush(s.image, k, need, kept, Finish(t.pc));
    var o := OpeningOf(kind, input);
    if o.Some? {
      OpeningBegins(s, kept, kind, input, max, room, ticket);
      StackNeedPush(s.image, k, need, Push(kept, Finish(t.pc)), o.value.frame);
      Enter2Cost(s, k, need, kept, Finish(t.pc), o.value.frame, o.value.entry, input, max, room, bound);
    } else {
      BeginLeafCost(s, k, need, kept, kind, input, max, room, ticket, bound);
    }
  }

  lemma OpeningBegins(s: Setting, t: Task, kind: NodeKind, input: V, max: nat, room: int, ticket: nat)
    requires OpeningOf(kind, input).Some?
    ensures var o := OpeningOf(kind, input).value;
      BeginKind(s, t, kind, input, max, room, ticket) == Enter2(t, Finish(t.pc), o.frame, o.entry, input, max, room)
  {
  }

  lemma Enter2Cost(
    s: Setting, k: Metric, need: nat -> nat, t: Task, f: FrameKind, g: FrameKind, pc: nat, input: V, max: nat,
    room: int, bound: nat)
    requires StackNeed(s.image, k, need, t.stack) <= bound && StackNeed(s.image, k, need, Push(t, f).stack) <= bound
    requires StackNeed(s.image, k, need, Push(Push(t, f), g).stack) <= bound
    requires k.base + W(k, |t.stack| + 2) <= bound && W(k, |t.stack| + 2) + need(pc) <= bound
    ensures Cost(s.image, k, need, After(s.h, Enter2(t, f, g, pc, input, max, room))) <= bound
  {
    hide StackNeed;
  }

  lemma BeginLeafCost(
    s: Setting, k: Metric, need: nat -> nat, t: Task, kind: NodeKind, input: V, max: nat, room: int, ticket: nat,
    bound: nat)
    requires t.state.Ready? && s.image.Has(t.pc) && kind == s.image.nodes[t.pc].kind && OpeningOf(kind, input).None?
    requires Covered(k, need, s.image.nodes[t.pc], need(t.pc)) && Cost(s.image, k, need, t) <= bound
    requires StackNeed(s.image, k, need, Push(t, Finish(t.pc)).stack) <= bound
    requires k.base + W(k, |t.stack| + Pushes(kind)) <= bound
    ensures var l := BeginKind(s, t, kind, input, max, room, ticket);
      !l.Spawn? ==> Cost(s.image, k, need, After(s.h, l)) <= bound
  {
    hide StackNeed;
    match kind
    case Literal(c) => ConcludeCost(s, k, need, t, t.pc, Ok(s.h.influence(c, input)), bound);
    case Input => ConcludeCost(s, k, need, t, t.pc, Ok(input), bound);
    case Load(slot) =>
      if slot < |t.env| && t.env[slot].Some? {
        ConcludeCost(s, k, need, t, t.pc, Ok(s.h.influence(t.env[slot].value, input)), bound);
      }
    case Fail(e) => ConcludeCost(s, k, need, t, t.pc, Err(e), bound);
    case If(_, _) =>
      if s.h.truth(input).Err? {
        ConcludeCost(s, k, need, t, t.pc, Err(s.h.truth(input).error), bound);
      }
    case _ =>
  }

  lemma UnwindCost(s: Setting, k: Metric, need: nat -> nat, t: Task, max: nat, room: int)
    requires t.state.Returning? && StackOk(s.image, |t.env|, t.stack) && |t.stack| <= max && 0 <= room
    ensures Cost(s.image, k, need, Unwind(s, t, max, room).task) <= Cost(s.image, k, need, t)
  {
    if t.stack != [] {
      var top := |t.stack| - 1;
      var below := t.(state := Ready, input := Some(Kept(s.h, t)), stack := t.stack[..top]);
      assert FrameOk(s.image, |t.env|, t.stack[top]);
      PopCost(s, k, need, below, t.stack[top], Carried(s.h, t), max, room + 1, Cost(s.image, k, need, t));
    }
  }

  lemma PopCost(s: Setting, k: Metric, need: nat -> nat, t: Task, frame: FrameKind, outcome: Res, max: nat, room: int,
      bound: nat)
    requires FrameOk(s.image, |t.env|, frame) && |t.stack| < max && 1 <= room
    requires k.base + W(k, |t.stack| + 1) <= bound && StackNeed(s.image, k, need, t.stack) <= bound
    requires FrameNeed(s.image, k, need, frame, |t.stack|) <= bound
    ensures Cost(s.image, k, need, PopFrame(s, t, frame, outcome, max, room).task) <= bound
  {
    match frame
    case Finish(node) => ConcludeCost(s, k, need, t, node, outcome, bound);
    case Continuation(node, _) => ConcludeCost(s, k, need, t, node, outcome, bound);
    case Bind(_, _) => PopPushCost(s, k, need, t, frame, outcome, max, room, bound);
    case FinallyFrame(_, _) => PopPushCost(s, k, need, t, frame, outcome, max, room, bound);
    case Condition(_, _, _, _) => PopLoopCost(s, k, need, t, frame, outcome, max, room, bound);
    case Iteration(_, _, _) => PopLoopCost(s, k, need, t, frame, outcome, max, room, bound);
    case _ => hide StackNeed;
  }

  lemma PopPushCost(s: Setting, k: Metric, need: nat -> nat, t: Task, frame: FrameKind, outcome: Res, max: nat,
      room: int, bound: nat)
    requires FrameOk(s.image, |t.env|, frame) && |t.stack| < max && 1 <= room && (frame.Bind? || frame.FinallyFrame?)
    requires k.base + W(k, |t.stack| + 1) <= bound && StackNeed(s.image, k, need, t.stack) <= bound
    requires FrameNeed(s.image, k, need, frame, |t.stack|) <= bound
    ensures Cost(s.image, k, need, PopFrame(s, t, frame, outcome, max, room).task) <= bound
  {
    hide StackNeed;
    StackNeedPush(s.image, k, need, t, Cleaned(outcome));
    if frame.Bind? {
      StackNeedPush(s.image, k, need, t, Unbind(frame.slot, t.env[frame.slot]));
    }
  }

  lemma PopLoopCost(s: Setting, k: Metric, need: nat -> nat, t: Task, frame: FrameKind, outcome: Res, max: nat,
      room: int, bound: nat)
    requires |t.stack| < max && 1 <= room && (frame.Condition? || frame.Iteration?)
    requires k.base + W(k, |t.stack| + 1) <= bound && StackNeed(s.image, k, need, t.stack) <= bound
    requires FrameNeed(s.image, k, need, frame, |t.stack|) <= bound
    ensures Cost(s.image, k, need, PopFrame(s, t, frame, outcome, max, room).task) <= bound
  {
    hide StackNeed;
    match frame
    case Condition(c, body, left, _) =>
      if left > 0 { StackNeedPush(s.image, k, need, t, Iteration(c, body, left - 1)); }
    case Iteration(c, body, left) =>
      if outcome.Ok? { StackNeedPush(s.image, k, need, t, Condition(c, body, left, outcome.value)); }
  }

  lemma AnswerCost(s: Setting, k: Metric, need: nat -> nat, cap: nat, t: Task, event: HostEvent, max: nat, room: int)
    requires t.state.Waiting? && s.image.Has(t.state.node) && t.input.Some? && !event.Continue?
    requires Table(s.image, k, need, cap) && Cost(s.image, k, need, t) <= cap
    ensures Cost(s.image, k, need, Answer(s, t, event, max, room).task) <= Cost(s.image, k, need, t)
  {
    var node := t.state.node;
    var bound := Cost(s.image, k, need, t);
    assert Covered(k, need, s.image.nodes[node], need(node));
    match event
    case Complete(r) => ConcludeCost(s, k, need, Charged(s.h, t, s.h.retainResult(r)), node, r, bound);
    case Enter(context) =>
      hide Table;
      EnterCost(s, k, need, t, context, max, room, bound);
  }

  lemma EnterCost(s: Setting, k: Metric, need: nat -> nat, t: Task, context: nat, max: nat, room: int, bound: nat)
    requires t.state.Waiting? && s.image.Has(t.state.node) && t.input.Some?
    requires Covered(k, need, s.image.nodes[t.state.node], need(t.state.node)) && Cost(s.image, k, need, t) <= bound
    ensures Cost(s.image, k, need, EnterScope(s, t, context, max, room).task) <= bound
  {
    var node := t.state.node;
    StackNeedPush(s.image, k, need, t, Finish(node));
    StackNeedPush(s.image, k, need, Push(t, Finish(node)), Context(t.context));
    hide StackNeed;
  }

  // ----- what the whole tree may use -----

  function TreeCost(image: Image, k: Metric, need: nat -> nat, tasks: seq<Task>, tree: Tree): nat {
    if tree.id >= |tasks| then 0
    else
      match tree
      case Solo(i) => Cost(image, k, need, tasks[i])
      case Pair(i, l, r) =>
        Max(Cost(image, k, need, tasks[i]),
            Use(k, tasks[i]) + TreeCost(image, k, need, tasks, l) + TreeCost(image, k, need, tasks, r))
  }

  /** What all live tasks use now. */
  function TreeUse(k: Metric, tasks: seq<Task>, tree: Tree): nat {
    (if tree.id < |tasks| then Use(k, tasks[tree.id]) else 0) +
    match tree
    case Solo(_) => 0
    case Pair(_, l, r) => TreeUse(k, tasks, l) + TreeUse(k, tasks, r)
  }

  lemma {:induction false} UseWithinCost(image: Image, k: Metric, need: nat -> nat, tasks: seq<Task>, tree: Tree)
    requires forall i :: i in Ids(tree) ==> i < |tasks|
    ensures TreeUse(k, tasks, tree) <= TreeCost(image, k, need, tasks, tree)
  {
    assert tree.id in Ids(tree);
    if tree.Pair? {
      UseWithinCost(image, k, need, tasks, tree.left);
      UseWithinCost(image, k, need, tasks, tree.right);
    }
  }

  /** A leaf may grow to its full cost without the whole tree exceeding its cost. */
  lemma {:induction false} LeafSlack(image: Image, k: Metric, need: nat -> nat, tasks: seq<Task>, tree: Tree, i: nat)
    requires forall j :: j in Ids(tree) ==> j < |tasks|
    requires Distinct(tree) && i in Ids(tree) && At(tree, i) == Solo(i)
    ensures TreeUse(k, tasks, tree) + Cost(image, k, need, tasks[i]) <=
      TreeCost(image, k, need, tasks, tree) + Use(k, tasks[i])
  {
    assert tree.id in Ids(tree);
    if tree.Pair? {
      if i in Ids(tree.left) {
        LeafSlack(image, k, need, tasks, tree.left, i);
        UseWithinCost(image, k, need, tasks, tree.right);
      } else {
        LeafSlack(image, k, need, tasks, tree.right, i);
        UseWithinCost(image, k, need, tasks, tree.left);
      }
    }
  }

  ghost predicate SameNeeds(t: Task, u: Task) { u == t.(cancelled := u.cancelled, env := u.env, input := u.input) }

  lemma CostAlike(image: Image, k: Metric, need: nat -> nat, t: Task, u: Task)
    requires SameNeeds(t, u)
    ensures Cost(image, k, need, u) == Cost(image, k, need, t) && Use(k, u) == Use(k, t)
  {
  }

  lemma {:induction false} TreeCostAlike(
    image: Image, k: Metric, need: nat -> nat, tasks: seq<Task>, other: seq<Task>, tree: Tree)
    requires forall j :: j in Ids(tree) ==> j < |tasks| && j < |other| && SameNeeds(tasks[j], other[j])
    ensures TreeCost(image, k, need, other, tree) == TreeCost(image, k, need, tasks, tree)
  {
    assert tree.id in Ids(tree);
    CostAlike(image, k, need, tasks[tree.id], other[tree.id]);
    hide Cost, Use;
    if tree.Pair? {
      TreeCostAlike(image, k, need, tasks, other, tree.left);
      TreeCostAlike(image, k, need, tasks, other, tree.right);
    }
  }

  /** Replacing a subtree by one that may use no more does not raise the whole cost. */
  lemma {:induction false} GraftCost(
    image: Image, k: Metric, need: nat -> nat, tasks: seq<Task>, other: seq<Task>, tree: Tree, sub: Tree)
    requires Distinct(tree) && sub.id in Ids(tree)
    requires forall j :: j in Ids(tree) ==> j < |tasks| && j < |other|
    requires forall j :: j in Ids(tree) && j !in Ids(At(tree, sub.id)) ==> SameNeeds(tasks[j], other[j])
    requires TreeCost(image, k, need, other, sub) <= TreeCost(image, k, need, tasks, At(tree, sub.id))
    ensures TreeCost(image, k, need, other, Graft(tree, sub)) <= TreeCost(image, k, need, tasks, tree)
  {
    assert tree.id in Ids(tree);
    hide Cost, Use;
    if tree.id != sub.id {
      CostAlike(image, k, need, tasks[tree.id], other[tree.id]);
      if sub.id in Ids(tree.left) {
        GraftCost(image, k, need, tasks, other, tree.left, sub);
        GraftMiss(tree.right, sub);
        TreeCostAlike(image, k, need, tasks, other, tree.right);
      } else {
        GraftCost(image, k, need, tasks, other, tree.right, sub);
        GraftMiss(tree.left, sub);
        TreeCostAlike(image, k, need, tasks, other, tree.left);
      }
    }
  }

  /** The tree of a machine with its cost under one metric bounded. */
  ghost predicate Within(s: Setting, k: Metric, need: nat -> nat, cap: nat, m: Machine, tree: Tree) {
    && Inv(s, m, tree)
    && Table(s.image, k, need, cap) && ForkTable(s.image, k, need, cap)
    && TreeCost(s.image, k, need, m.tasks, tree) <= cap
  }

  lemma IdsInRange(s: Setting, m: Machine, tree: Tree)
    requires Inv(s, m, tree)
    ensures forall i :: i in Ids(tree) ==> i < |m.tasks|
  {
    forall i | i in Ids(tree) ensures i < |m.tasks| {
      ShapeAt(m.tasks, tree, None, 0, i);
    }
  }

  /** A leaf that moves without raising its cost keeps the whole bound. */
  lemma LeafWithin(s: Setting, k: Metric, need: nat -> nat, cap: nat, m: Machine, tree: Tree, i: nat, u: Task)
    requires Within(s, k, need, cap, m, tree) && i in Ids(tree) && i < |m.tasks| && JoinOf(m.tasks[i].state).None?
    requires Cost(s.image, k, need, u) <= Cost(s.image, k, need, m.tasks[i])
    ensures TreeCost(s.image, k, need, m.tasks[i := u], tree) <= cap
  {
    IdsInRange(s, m, tree);
    LeafAt(m.tasks, tree, i);
    GraftSame(tree, i);
    hide Cost, Shape, Inv;
    GraftCost(s.image, k, need, m.tasks, m.tasks[i := u], tree, Solo(i));
  }

  /** A leaf's own cost is within the bound. */
  lemma LeafCost(s: Setting, k: Metric, need: nat -> nat, cap: nat, m: Machine, tree: Tree, i: nat)
    requires Within(s, k, need, cap, m, tree) && i in Ids(tree) && i < |m.tasks| && JoinOf(m.tasks[i].state).None?
    ensures Cost(s.image, k, need, m.tasks[i]) + TreeUse(k, m.tasks, tree) <= cap + Use(k, m.tasks[i])
    ensures Cost(s.image, k, need, m.tasks[i]) <= cap
  {
    IdsInRange(s, m, tree);
    LeafAt(m.tasks, tree, i);
    LeafSlack(s.image, k, need, m.tasks, tree, i);
    UseOfLeaf(k, m.tasks, tree, i);
  }

  lemma {:induction false} UseOfLeaf(k: Metric, tasks: seq<Task>, tree: Tree, i: nat)
    requires i in Ids(tree) && i < |tasks|
    ensures Use(k, tasks[i]) <= TreeUse(k, tasks, tree)
  {
    if tree.id != i {
      if i in Ids(tree.left) {
        UseOfLeaf(k, tasks, tree.left, i);
      } else {
        UseOfLeaf(k, tasks, tree.right, i);
      }
    }
  }

  lemma ForkWithin(
    s: Setting, k: Metric, need: nat -> nat, cap: nat, m: Machine, tree: Tree, i: nat, t: Task, a: nat, b: nat,
    input: V)
    requires Within(s, k, need, cap, m, tree) && i in Ids(tree) && i < |m.tasks| && m.tasks[i].state.Ready?
    requires t == m.tasks[i].(input := t.input) && s.image.Has(t.pc) && s.image.nodes[t.pc].kind.Fork?
    requires a < b < |m.tasks| && m.tasks[a].state.Free? && m.tasks[b].state.Free?
    ensures var kind := s.image.nodes[t.pc].kind;
      TreeCost(s.image, k, need, Forked(m, i, t, a, b, kind.left, kind.right, kind.join, input).tasks,
               Graft(tree, Pair(i, Solo(a), Solo(b)))) <= cap
  {
    hide Cost, Inv, Table, ForkTable, Ids, Distinct, At, Graft, TreeCost, StackNeed, Shape, Forked, TreeUse;
    var kind := s.image.nodes[t.pc].kind;
    LeafCost(s, k, need, cap, m, tree, i);
    IdsInRange(s, m, tree);
    ForkSlots(s, m, tree, i, a, b);
    LeafNeed(s, k, need, cap, m.tasks[i], t);
    ForkNeeds(s, k, need, cap, t.pc);
    ForkedCost(s, k, need, m, i, t, a, b, input);
    var other := Forked(m, i, t, a, b, kind.left, kind.right, kind.join, input).tasks;
    ForkIds(i, a, b);
    ForkOthers(m, i, t, a, b, kind.left, kind.right, kind.join, input);
    LeafTree(s.image, k, need, m.tasks, i);
    GraftCost(s.image, k, need, m.tasks, other, tree, Pair(i, Solo(a), Solo(b)));
  }

  lemma ForkSlots(s: Setting, m: Machine, tree: Tree, i: nat, a: nat, b: nat)
    requires Inv(s, m, tree) && i in Ids(tree) && i < |m.tasks| && m.tasks[i].state.Ready?
    requires a < b < |m.tasks| && m.tasks[a].state.Free? && m.tasks[b].state.Free?
    ensures a !in Ids(tree) && b !in Ids(tree) && a != i && b != i && m.tasks[a].stack == [] && m.tasks[b].stack == []
    ensures Distinct(tree) && At(tree, i) == Solo(i) && Ids(At(tree, i)) == {i} && Valid(s.image)
  {
    hide CleanedIn, Occupied;
    LeafAt(m.tasks, tree, i);
  }

  /** The cost of a task that is about to fork covers what its instruction needs. */
  lemma LeafNeed(s: Setting, k: Metric, need: nat -> nat, cap: nat, was: Task, t: Task)
    requires t == was.(input := t.input) && t.state.Ready? && Cost(s.image, k, need, was) <= cap
    ensures need(t.pc) <= cap
  {
    hide StackNeed;
  }

  lemma ForkOthers(m: Machine, i: nat, t: Task, a: nat, b: nat, left: nat, right: nat, join: Join, input: V)
    requires i < |m.tasks| && a < |m.tasks| && b < |m.tasks|
    ensures var other := Forked(m, i, t, a, b, left, right, join, input).tasks;
      |other| == |m.tasks| && forall k :: 0 <= k < |other| && k != i && k != a && k != b ==>
        SameNeeds(m.tasks[k], other[k])
  {
  }

  lemma LeafTree(image: Image, k: Metric, need: nat -> nat, tasks: seq<Task>, i: nat)
    requires i < |tasks|
    ensures TreeCost(image, k, need, tasks, Solo(i)) == Cost(image, k, need, tasks[i])
  {
    hide Cost;
  }

  lemma ForkNeeds(s: Setting, k: Metric, need: nat -> nat, cap: nat, pc: nat)
    requires Table(s.image, k, need, cap) && ForkTable(s.image, k, need, cap)
    requires Valid(s.image) && s.image.Has(pc) && s.image.nodes[pc].kind.Fork? && need(pc) <= cap
    ensures var kind := s.image.nodes[pc].kind;
      && k.base + need(kind.left) + need(kind.right) <= need(pc)
      && k.base <= need(kind.left) && k.base <= need(kind.right)
      && NextNeed(s.image, need, pc) <= need(pc)
  {
    var node := s.image.nodes[pc];
    assert NodeValid(s.image, node);
    assert node.kind.left in Targets(node) && node.kind.right in Targets(node);
    assert Covered(k, need, node, need(pc));
    assert Covered(k, need, s.image.nodes[node.kind.left], need(node.kind.left));
    assert Covered(k, need, s.image.nodes[node.kind.right], need(node.kind.right));
  }

  lemma ForkedCost(s: Setting, k: Metric, need: nat -> nat, m: Machine, i: nat, t: Task, a: nat, b: nat, input: V)
    requires i < |m.tasks| && a < b < |m.tasks| && i != a && i != b
    requires t == m.tasks[i].(input := t.input) && t.state.Ready? && s.image.Has(t.pc) && s.image.nodes[t.pc].kind.Fork?
    requires m.tasks[a].stack == [] && m.tasks[b].stack == []
    requires var kind := s.image.nodes[t.pc].kind;
      && k.base + need(kind.left) + need(kind.right) <= need(t.pc)
      && k.base <= need(kind.left) && k.base <= need(kind.right)
      && NextNeed(s.image, need, t.pc) <= need(t.pc)
    ensures var kind := s.image.nodes[t.pc].kind;
      TreeCost(s.image, k, need, Forked(m, i, t, a, b, kind.left, kind.right, kind.join, input).tasks,
        Pair(i, Solo(a), Solo(b)))
        <= Cost(s.image, k, need, m.tasks[i])
  {
    var kind := s.image.nodes[t.pc].kind;
    var other := Forked(m, i, t, a, b, kind.left, kind.right, kind.join, input).tasks;
    assert other[a] == Child(m.tasks[a], i, t, kind.left, input)
      && other[b] == Child(m.tasks[b], i, t, kind.right, input);
    assert Cost(s.image, k, need, other[a]) == need(kind.left) && Cost(s.image, k, need, other[b]) == need(kind.right);
  }

  // ----- every host call keeps the bound -----

  lemma JoinWithin(s: Setting, k: Metric, need: nat -> nat, cap: nat, m: Machine, tree: Tree, i: nat)
    returns (grown: Tree)
    requires Within(s, k, need, cap, m, tree) && i in Ids(tree) && i < |m.tasks| && m.tasks[i].state.Joining?
    ensures Within(s, k, need, cap, JoinStep(s, m, i).m, grown)
  {
    var j := m.tasks[i].state.pair;
    RacedWithin(s, k, need, cap, m, tree, i);
    JoinEffect(s, m, tree, i);
    if BothDone(m.tasks, j) {
      JoinedTree(s, m, tree, i);
      JoinedWithin(s, k, need, cap, m, tree, i);
      grown := Graft(tree, Solo(i));
    } else {
      RacedTree(s, m, tree, j, i);
      grown := tree;
    }
  }

  lemma RacedWithin(s: Setting, k: Metric, need: nat -> nat, cap: nat, m: Machine, tree: Tree, i: nat)
    requires Within(s, k, need, cap, m, tree) && i in Ids(tree) && i < |m.tasks| && m.tasks[i].state.Joining?
    ensures TreeCost(s.image, k, need, Raced(m.tasks, m.tasks[i].state.pair), tree) <= cap
  {
    IdsInRange(s, m, tree);
    TreeCostAlike(s.image, k, need, m.tasks, Raced(m.tasks, m.tasks[i].state.pair), tree);
  }

  lemma JoinedWithin(s: Setting, k: Metric, need: nat -> nat, cap: nat, m: Machine, tree: Tree, i: nat)
    requires Within(s, k, need, cap, m, tree) && i in Ids(tree) && i < |m.tasks| && m.tasks[i].state.Joining?
    requires BothDone(m.tasks, m.tasks[i].state.pair)
    requires TreeCost(s.image, k, need, Raced(m.tasks, m.tasks[i].state.pair), tree) <= cap
    ensures TreeCost(s.image, k, need, JoinStep(s, m, i).m.tasks, Graft(tree, Solo(i))) <= cap
  {
    var j := m.tasks[i].state.pair;
    hide Cost, CleanedIn, Occupied, Restored, RestoredContext, Raced, JoinStep, Merged, Conclude, Table, ForkTable,
      TreeCost;
    IdsInRange(s, m, tree);
    JoinEffect(s, m, tree, i);
    PairIs(m.tasks, tree, i);
    var u := Conclude(s, Raced(m.tasks, j)[i], j.node, Merged(s.h, m.tasks, j)).task;
    ConcludedCost(s, k, need, Raced(m.tasks, j)[i], Merged(s.h, m.tasks, j));
    hide Shape, Successor;
    JoinedGraft(s.image, k, need, Raced(m.tasks, j), tree, i, j.left, j.right, Idle(m.limits.bindingsPerTask), u);
  }

  /** Collapsing two finished children into a parent that may use no more than before. */
  lemma JoinedGraft(
    image: Image, k: Metric, need: nat -> nat, tasks: seq<Task>, tree: Tree, i: nat, l: nat, r: nat, idle: Task,
    u: Task)
    requires Distinct(tree) && i in Ids(tree) && At(tree, i) == Pair(i, Solo(l), Solo(r))
    requires forall j :: j in Ids(tree) ==> j < |tasks|
    requires i < |tasks| && l < |tasks| && r < |tasks|
    requires Cost(image, k, need, u) <= Cost(image, k, need, tasks[i])
    ensures TreeCost(image, k, need, tasks[l := idle][r := idle][i := u], Graft(tree, Solo(i))) <=
      TreeCost(image, k, need, tasks, tree)
  {
    hide Cost;
    var other := tasks[l := idle][r := idle][i := u];
    assert Ids(At(tree, i)) == {i, l, r};
    GraftCost(image, k, need, tasks, other, tree, Solo(i));
  }

  lemma ConcludedCost(s: Setting, k: Metric, need: nat -> nat, t: Task, r: Res)
    requires t.state.Joining? && s.image.Has(t.state.pair.node)
    ensures Cost(s.image, k, need, Conclude(s, t, t.state.pair.node, r).task) <= Cost(s.image, k, need, t)
  {
    ConcludeCost(s, k, need, t, t.state.pair.node, r, Cost(s.image, k, need, t));
  }

  lemma RacedTree(s: Setting, m: Machine, tree: Tree, j: JoinState, i: nat)
    requires Inv(s, m, tree) && i in Ids(tree) && i < |m.tasks| && m.tasks[i].state == Joining(j)
    ensures Inv(s, m.(tasks := Raced(m.tasks, j)), tree)
  {
    ChildrenIn(m.tasks, tree, i);
    var a := DoneAt(m.tasks, j.left);
    if j.join.Race? && (a || DoneAt(m.tasks, j.right)) {
      CancelTreeKeeps(s, m, tree, if a then j.right else j.left);
    }
  }

  lemma JoinedTree(s: Setting, m: Machine, tree: Tree, i: nat)
    requires Inv(s, m, tree) && i in Ids(tree) && i < |m.tasks| && m.tasks[i].state.Joining?
    requires BothDone(m.tasks, m.tasks[i].state.pair)
    ensures Inv(s, JoinStep(s, m, i).m, Graft(tree, Solo(i)))
  {
    var j := m.tasks[i].state.pair;
    RacedTree(s, m, tree, j, i);
    JoinEffect(s, m, tree, i);
    hide JoinStep, Raced, Occupied, CleanedIn, Restored, RestoredContext, Shape;
    var n := m.(tasks := Raced(m.tasks, j));
    JoinedKeeps(s, n, tree, i, Conclude(s, n.tasks[i], j.node, Merged(s.h, m.tasks, j)).task);
  }

  lemma SpawnWithin(s: Setting, k: Metric, need: nat -> nat, cap: nat, m: Machine, tree: Tree, i: nat)
    returns (grown: Tree)
    requires Within(s, k, need, cap, m, tree) && i in Ids(tree) && i < |m.tasks| && m.tasks[i].state.Ready?
    requires s.image.nodes[m.tasks[i].pc].kind.Fork?
    ensures Within(s, k, need, cap, Transition(s, m, i).m, grown)
  {
    hide Inv, Cost, TreeCost, Table, ForkTable, Transition, Graft, SpawnTasks, FaultResult;
    LiveTask(s, m, tree, i);
    var kind := s.image.nodes[m.tasks[i].pc].kind;
    var t, input := Armed(s, m.tasks[i]), m.tasks[i].input.value;
    ForkIsSpawn(s, m, i);
    BeginOk(s, m.tasks[i], m.limits.framesPerTask, Room(m), m.ticket);
    SpawnIs(s, m, i, t, kind.left, kind.right, kind.join, input);
    var a := FirstFree(m.tasks, 0);
    if a.None? || FirstFree(m.tasks, a.value + 1).None? {
      grown := tree;
      TrappedKeeps(s, m, tree, i, t, Tasks);
      TrappedCost(s, k, need, m.tasks[i], t, Tasks);
      LeafWithin(s, k, need, cap, m, tree, i, Return(t, FaultResult(s.h, t, Tasks)));
    } else {
      var b := FirstFree(m.tasks, a.value + 1);
      grown := Graft(tree, Pair(i, Solo(a.value), Solo(b.value)));
      ForkedKeeps(s, m, tree, i, t, a.value, b.value, kind.left, kind.right, kind.join, input);
      ForkWithin(s, k, need, cap, m, tree, i, t, a.value, b.value, input);
    }
  }

  lemma ForkIsSpawn(s: Setting, m: Machine, i: nat)
    requires i < |m.tasks| && m.tasks[i].state.Ready? && m.tasks[i].input.Some?
    requires s.image.Has(m.tasks[i].pc) && s.image.nodes[m.tasks[i].pc].kind.Fork?
    ensures var kind := s.image.nodes[m.tasks[i].pc].kind;
      Transition(s, m, i).m ==
        SpawnTasks(s, m, i, Armed(s, m.tasks[i]), kind.left, kind.right, kind.join, m.tasks[i].input.value)
  {
    hide SpawnTasks, Occupied;
  }

  lemma SpawnIs(s: Setting, m: Machine, i: nat, t: Task, left: nat, right: nat, join: Join, input: V)
    requires i < |m.tasks|
    ensures var a := FirstFree(m.tasks, 0);
      SpawnTasks(s, m, i, t, left, right, join, input) ==
        if a.None? || FirstFree(m.tasks, a.value + 1).None? then Trapped(s, m, i, t, Tasks)
        else Forked(m, i, t, a.value, FirstFree(m.tasks, a.value + 1).value, left, right, join, input)
  {
    hide FaultResult;
  }

  lemma TrappedCost(s: Setting, k: Metric, need: nat -> nat, t: Task, u: Task, fault: Fault)
    requires u == t.(input := u.input)
    ensures Cost(s.image, k, need, Return(u, FaultResult(s.h, u, fault))) <= Cost(s.image, k, need, t)
  {
  }

  lemma TransitionWithin(s: Setting, k: Metric, need: nat -> nat, cap: nat, m: Machine, tree: Tree, i: nat)
    returns (grown: Tree)
    requires Within(s, k, need, cap, m, tree) && i in Ids(tree) && i < |m.tasks|
    ensures Within(s, k, need, cap, Transition(s, m, i).m, grown)
  {
    hide Inv, Cost, TreeCost, TreeUse, Table, ForkTable, Begin, Unwind, JoinStep, Settle, Occupied, Successor;
    LiveTask(s, m, tree, i);
    var t := m.tasks[i];
    var max := m.limits.framesPerTask;
    grown := tree;
    match t.state
    case Returning(_) =>
      UnwindOk(s, t, max, Room(m));
      UnwindCost(s, k, need, t, max, Room(m));
      LeafSettles(s, m, i, Unwind(s, t, max, Room(m)));
      LeafMoves(s, m, tree, i, Unwind(s, t, max, Room(m)).task);
      LeafWithin(s, k, need, cap, m, tree, i, Unwind(s, t, max, Room(m)).task);
    case Joining(_) => grown := JoinWithin(s, k, need, cap, m, tree, i);
    case Ready =>
      if s.image.nodes[t.pc].kind.Fork? {
        grown := SpawnWithin(s, k, need, cap, m, tree, i);
      } else {
        BeginOk(s, t, max, Room(m), m.ticket);
        LeafCost(s, k, need, cap, m, tree, i);
        BeginCost(s, k, need, cap, t, max, Room(m), m.ticket);
        var l := Begin(s, t, max, Room(m), m.ticket);
        LeafSettles(s, m, i, l);
        LeafMoves(s, m, tree, i, After(s.h, l));
        LeafWithin(s, k, need, cap, m, tree, i, After(s.h, l));
        TicketFree(s, m, tree, SetTask(m, i, After(s.h, l)));
      }
    case _ =>
  }

  /** A transition that does not fork stores its own task, and perhaps issues a ticket. */
  lemma LeafSettles(s: Setting, m: Machine, i: nat, l: Local)
    requires i < |m.tasks| && !l.Spawn?
    ensures Settle(s, m, i, l).m == SetTask(m, i, After(s.h, l)).(ticket := m.ticket + if l.Await? then 1 else 0)
  {
    hide FaultResult;
  }

  lemma TicketFree(s: Setting, m: Machine, tree: Tree, n: Machine)
    requires Inv(s, n, tree)
    ensures forall ticket: nat :: Inv(s, n.(ticket := ticket), tree)
  {
    hide Shape, Occupied;
  }

  /** Preparing a pass only marks tasks and turns the picked one into a failing return. */
  lemma PreparedWithin(s: Setting, k: Metric, need: nat -> nat, cap: nat, m: Machine, tree: Tree)
    requires Within(s, k, need, cap, m, tree) && Acting(s, m).Some?
    ensures Within(s, k, need, cap, Acting(s, m).value.0, tree)
  {
    hide TreeCost, Inv, Scan, Table, ForkTable, Convert, Quoted;
    ActingKeeps(s, m, tree);
    QuotedWithin(s, k, need, cap, m, tree);
    QuotedRoot(m);
    NeverHalted(s, Quoted(m), tree, Acting(s, m).value.1);
    ConvertWithin(s, k, need, cap, Quoted(m), tree, Acting(s, m).value.1);
  }

  lemma NeverHalted(s: Setting, m: Machine, tree: Tree, i: nat)
    requires Inv(s, m, tree) && i in Ids(tree) && i < |m.tasks| && |m.tasks| > 0 && !Terminal(m.tasks[0].state)
    ensures !m.tasks[i].state.Halted?
  {
    LiveTask(s, m, tree, i);
  }

  lemma ConvertWithin(s: Setting, k: Metric, need: nat -> nat, cap: nat, m: Machine, tree: Tree, i: nat)
    requires Within(s, k, need, cap, m, tree) && i in Ids(tree) && i < |m.tasks| && !m.tasks[i].state.Halted?
    ensures TreeCost(s.image, k, need, m.tasks[i := Convert(s.h, m.tasks[i])], tree) <= cap
  {
    if m.tasks[i].state.Joining? {
      assert m.tasks[i := m.tasks[i]] == m.tasks;
    } else {
      ConvertCost(s, k, need, m.tasks[i]);
      hide Cost;
      LeafWithin(s, k, need, cap, m, tree, i, Convert(s.h, m.tasks[i]));
    }
  }

  lemma ConvertCost(s: Setting, k: Metric, need: nat -> nat, t: Task)
    ensures Cost(s.image, k, need, Convert(s.h, t)) <= Cost(s.image, k, need, t)
  {
  }

  /** A machine that halts has nothing left to start: its cost can only drop. */
  lemma HaltCost(image: Image, k: Metric, need: nat -> nat, t: Task, r: Res)
    ensures Cost(image, k, need, t.(state := Halted(r, JoinOf(t.state)))) <= Cost(image, k, need, t)
  {
  }

  lemma {:induction false} RootLower(image: Image, k: Metric, need: nat -> nat, tasks: seq<Task>, tree: Tree, u: Task)
    requires (forall i :: i in Ids(tree) ==> i < |tasks|) && Distinct(tree)
    requires Cost(image, k, need, u) <= Cost(image, k, need, tasks[tree.id]) && Use(k, u) == Use(k, tasks[tree.id])
    ensures TreeCost(image, k, need, tasks[tree.id := u], tree) <= TreeCost(image, k, need, tasks, tree)
  {
    assert tree.id in Ids(tree);
    if tree.Pair? {
      TreeCostAlike(image, k, need, tasks, tasks[tree.id := u], tree.left);
      TreeCostAlike(image, k, need, tasks, tasks[tree.id := u], tree.right);
    }
  }

  lemma IdleWithin(s: Setting, k: Metric, need: nat -> nat, cap: nat, m: Machine, tree: Tree, layout: seq<FrameKind>)
    requires Within(s, k, need, cap, m, tree) && Acting(s, m).None?
    ensures Within(s, k, need, cap, Iterate(s, m, layout).m, tree)
  {
    hide Inv, Table, ForkTable, TreeCost, Iterate, Acting, Halt, Convert, Cancel;
    RootLive(s, m, tree);
    var x := IdleIs(s, m, layout);
    QuotedWithin(s, k, need, cap, m, tree);
    QuotedRoot(m);
    if x.Some? {
      HaltWithin(s, k, need, cap, Quoted(m), tree, x.value, layout);
    }
  }

  lemma QuotedWithin(s: Setting, k: Metric, need: nat -> nat, cap: nat, m: Machine, tree: Tree)
    requires Within(s, k, need, cap, m, tree)
    ensures |m.tasks| > 0 && Within(s, k, need, cap, Quoted(m), tree)
  {
    CancelKeeps(s, m, tree);
    IdsInRange(s, m, tree);
    hide Inv, Table, ForkTable, TreeCost;
    TreeCostAlike(s.image, k, need, m.tasks, Quoted(m).tasks, tree);
  }

  lemma HaltWithin(s: Setting, k: Metric, need: nat -> nat, cap: nat, m: Machine, tree: Tree, i: nat,
      layout: seq<FrameKind>)
    requires Within(s, k, need, cap, m, tree) && !Terminal(m.tasks[0].state) && i < |m.tasks| && Look(m.tasks, i) == Run
    ensures Within(s, k, need, cap, Halt(s, SetTask(m, i, Convert(s.h, m.tasks[i])), layout).m, tree)
  {
    hide Cost, TreeCost, Inv, Table, ForkTable, Convert, TerminalFault;
    var c := SetTask(m, i, Convert(s.h, m.tasks[i]));
    RootLive(s, m, tree);
    ConvertKeeps(s, m, tree, i);
    IdsInRange(s, c, tree);
    NeverHalted(s, m, tree, i);
    ConvertWithin(s, k, need, cap, m, tree, i);
    HaltKeeps(s, c, tree, layout);
    var root := Halt(s, c, layout).m.tasks[0];
    HaltCost(s.image, k, need, c.tasks[0], root.state.outcome);
    RootId(s, c, tree);
    RootLower(s.image, k, need, c.tasks, tree, root);
  }

  lemma RootId(s: Setting, m: Machine, tree: Tree)
    requires Inv(s, m, tree)
    ensures tree.id == 0 && Distinct(tree)
  {
  }

  /** Every host call other than appending a continuation keeps the bound. */
  lemma ApplyWithin(s: Setting, k: Metric, need: nat -> nat, cap: nat, m: Machine, tree: Tree, move: Move)
    returns (grown: Tree)
    requires Within(s, k, need, cap, m, tree) && Legal(m, move) && !Appends(move)
    ensures Within(s, k, need, cap, Apply(s, m, move).m, grown)
  {
    hide Within, Iterate, Deliver, Grow, Cancel, Pending;
    grown := tree;
    WithinRoot(s, k, need, cap, m, tree);
    match move
    case Tick(layout) => grown := TickWithin(s, k, need, cap, m, tree, layout);
    case Respond(i, ticket, event) =>
      if Pending(m, i, ticket) {
        RespondWithin(s, k, need, cap, m, tree, i, ticket, event);
      } else {
        StaleIs(s, m, i, ticket, event);
      }
    case Abort => AbortWithin(s, k, need, cap, m, tree);
    case Resize(tasks, capacity, frames, bindings) =>
      GrowWithin(s, k, need, cap, m, tree, tasks, capacity, frames, bindings);
  }

  lemma WithinRoot(s: Setting, k: Metric, need: nat -> nat, cap: nat, m: Machine, tree: Tree)
    requires Within(s, k, need, cap, m, tree)
    ensures |m.tasks| > 0
  {
  }

  lemma StaleIs(s: Setting, m: Machine, i: nat, ticket: nat, event: HostEvent)
    requires |m.tasks| > 0 && !Pending(m, i, ticket)
    ensures Deliver(s, m, i, ticket, event).m == m
  {
  }

  lemma AbortWithin(s: Setting, k: Metric, need: nat -> nat, cap: nat, m: Machine, tree: Tree)
    requires Within(s, k, need, cap, m, tree)
    ensures |m.tasks| > 0 && Within(s, k, need, cap, Cancel(m), tree)
  {
    RootLive(s, m, tree);
    CancelKeeps(s, m, tree);
    IdsInRange(s, m, tree);
    hide Inv, Table, ForkTable, TreeCost;
    TreeCostAlike(s.image, k, need, m.tasks, Cancel(m).tasks, tree);
  }

  lemma GrowWithin(
    s: Setting, k: Metric, need: nat -> nat, cap: nat, m: Machine, tree: Tree,
    tasks: nat, capacity: nat, frames: nat, bindings: nat)
    requires Within(s, k, need, cap, m, tree) && Legal(m, Resize(tasks, capacity, frames, bindings))
    ensures Within(s, k, need, cap, Grow(m, tasks, capacity, frames, bindings), tree)
  {
    GrowKeeps(s, m, tree, tasks, capacity, frames, bindings);
    IdsInRange(s, m, tree);
    GrowParts(m, tasks, capacity, frames, bindings);
    hide Inv, Table, ForkTable, TreeCost, Grow;
    var g := Grow(m, tasks, capacity, frames, bindings);
    forall i | 0 <= i < |m.tasks| ensures SameNeeds(m.tasks[i], g.tasks[i]) {
      GrownTask(m, tasks, capacity, frames, bindings, i);
    }
    TreeCostAlike(s.image, k, need, m.tasks, g.tasks, tree);
  }

  lemma TickWithin(s: Setting, k: Metric, need: nat -> nat, cap: nat, m: Machine, tree: Tree, layout: seq<FrameKind>)
    returns (grown: Tree)
    requires Within(s, k, need, cap, m, tree)
    ensures Within(s, k, need, cap, Iterate(s, m, layout).m, grown)
  {
    var a := Acting(s, m);
    if a.None? {
      IdleWithin(s, k, need, cap, m, tree, layout);
      grown := tree;
    } else {
      PreparedWithin(s, k, need, cap, m, tree);
      ActingKeeps(s, m, tree);
      ActingMoves(s, m, layout);
      hide Acting, Iterate, Transition, Within;
      grown := TransitionWithin(s, k, need, cap, a.value.0, tree, a.value.1);
    }
  }

  lemma RespondWithin(
    s: Setting, k: Metric, need: nat -> nat, cap: nat, m: Machine, tree: Tree, i: nat, ticket: nat, event: HostEvent)
    requires Within(s, k, need, cap, m, tree) && Pending(m, i, ticket) && !event.Continue?
    ensures Within(s, k, need, cap, Deliver(s, m, i, ticket, event).m, tree)
  {
    DeliverKeeps(s, m, tree, i, ticket, event);
    ShapeAt(m.tasks, tree, None, 0, i);
    LeafCost(s, k, need, cap, m, tree, i);
    hide Cost, Answer, Occupied, CleanedIn, Shape, TreeUse;
    AnswerCost(s, k, need, cap, m.tasks[i], event, m.limits.framesPerTask, Room(m));
    hide Table, ForkTable;
    LeafWithin(s, k, need, cap, m, tree, i, Answer(s, m.tasks[i], event, m.limits.framesPerTask, Room(m)).task);
  }

  predicate Appends(move: Move) { move.Respond? && move.event.Continue? }
}
