/** The execution machine as a function on values: every task carries its own
    continuation stack and binding row. Models crates/xolotl-core/src/machine.rs;
    the in-place form over shared storage is in Execution.dfy. */
module Machine {
  import opened Program

  datatype FrameKind =
    | Vacant
    | Finish(node: nat)
    | ThenFrame(after: nat)
    | CatchFrame(recover: nat)
    | FinallyFrame(cleanup: nat, input: V)
    | Cleaned(outcome: Res)
    | Condition(condition: nat, body: nat, left: nat, value: V)
    | Iteration(condition: nat, body: nat, left: nat)
    | Context(context: nat)
    | Choose(yes: nat, no: nat, input: V)
    | Bind(slot: nat, body: nat)
    | Unbind(slot: nat, previous: Option<V>)
    | Continuation(node: nat, entry: nat)

  datatype JoinState = JoinState(left: nat, right: nat, join: Join, node: nat)

  datatype State =
    | Free
    | Ready
    | Waiting(ticket: nat, node: nat)
    | Joining(pair: JoinState)
    | Returning(outcome: Res)
    | Done(outcome: Res)
    | Halted(outcome: Res, pending: Option<JoinState>)

  function JoinOf(state: State): Option<JoinState> {
    match state
    case Joining(j) => Some(j)
    case Halted(_, j) => j
    case _ => None
  }

  predicate Terminal(state: State) { state.Done? || state.Halted? }

  datatype Task = Task(
    state: State,
    pc: nat,
    input: Option<V>,
    stack: seq<FrameKind>,
    context: nat,
    parent: Option<nat>,
    cleaning: nat,
    cancelled: bool,
    env: seq<Option<V>>)

  /** An unused slot whose binding row holds `width` empty cells. */
  function Idle(width: nat): Task {
    Task(Free, 0, None, [], 0, None, 0, false, seq(width, _ => None))
  }

  datatype Limits = Limits(framesPerTask: nat, bindingsPerTask: nat, maxSteps: Option<nat>, cleanupSteps: nat)

  datatype Machine = Machine(
    tasks: seq<Task>,
    capacity: nat,
    limits: Limits,
    steps: nat,
    cleanupSteps: nat,
    ticket: nat,
    cursor: nat,
    aborting: bool,
    imageId: nat)

  datatype Ask = Ask(task: nat, ticket: nat, port: nat, input: V, context: nat, position: nat, cleanup: bool)

  datatype Advance =
    | Requested(request: Ask)
    | Withdraw(task: nat, ticket: nat)
    | Yielded
    | Blocked
    | Finished(result: Res)

  datatype HostEvent =
    | Complete(result: Res)
    | Enter(context: nat)
    | Continue(entry: nat, input: V)

  // ----- one task -----

  function Push(t: Task, f: FrameKind): Task { t.(stack := t.stack + [f]) }

  function Start(t: Task, pc: nat, input: V): Task { t.(pc := pc, input := Some(input), state := Ready) }

  function Return(t: Task, r: Res): Task { t.(state := Returning(r)) }

  /** Whether `n` more frames fit the task's own depth limit and the shared pool. */
  predicate Fits(t: Task, n: nat, max: nat, room: int) { |t.stack| + n <= max && n <= room }

  function InfluenceTask(h: Values, t: Task, r: Res): Res {
    if t.input.Some? then h.influenceResult(r, t.input.value) else r
  }

  function FaultResult(h: Values, t: Task, fault: Fault): Res {
    var r := InfluenceTask(h, t, Err(h.error(fault)));
    match t.state
    case Returning(previous) => h.influenceResult(r, h.retainResult(previous))
    case Done(previous) => h.influenceResult(r, h.retainResult(previous))
    case _ => r
  }

  /** What one transition does to its own task. A trap keeps the effects made before it. */
  datatype Local =
    | Next(task: Task)
    | Await(task: Task, port: nat, asked: V)
    | Trap(task: Task, fault: Fault)
    | Spawn(task: Task, left: nat, right: nat, join: Join, shared: V)

  function Conclude(s: Setting, t: Task, node: nat, result: Res): Local {
    if !s.image.Has(node) then Trap(t, InvalidNode)
    else
      var r := InfluenceTask(s.h, t, result);
      if r.Ok? && s.image.nodes[node].next.Some?
      then Next(Start(t, s.image.nodes[node].next.value, r.value))
      else Next(Return(t, r))
  }

  function Enter1(t: Task, f: FrameKind, pc: nat, input: V, max: nat, room: int): Local {
    if !Fits(t, 1, max, room) then Trap(t, Frames)
    else Next(Start(Push(t, f), pc, input))
  }

  function Enter2(t: Task, f: FrameKind, g: FrameKind, pc: nat, input: V, max: nat, room: int): Local {
    if !Fits(t, 1, max, room) then Trap(t, Frames)
    else Enter1(Push(t, f), g, pc, input, max, room - 1)
  }

  function Begin(s: Setting, t: Task, max: nat, room: int, ticket: nat): Local {
    if !s.image.Has(t.pc) then Trap(t, InvalidNode)
    else if t.input.None? then Trap(t, Type)
    else
      BeginKind(s, Armed(s, t), s.image.nodes[t.pc].kind, t.input.value, max, room, ticket)
  }

  /** A task about to start: host calls keep the whole input, other instructions
      only what a later failure depends on. */
  function Armed(s: Setting, t: Task): Task
    requires s.image.Has(t.pc) && t.input.Some?
  {
    var kind := s.image.nodes[t.pc].kind;
    var whole := kind.Request? || kind.Scope?;
    t.(input := Some(if whole then t.input.value else s.h.retainControl(t.input.value)))
  }

  /** The frame pushed above `Finish`, and the entry started under it. */
  datatype Opening = Opening(frame: FrameKind, entry: nat)

  function OpeningOf(kind: NodeKind, input: V): Option<Opening> {
    match kind
    case Then(first, after) => Some(Opening(ThenFrame(after), first))
    case Catch(body, recover) => Some(Opening(CatchFrame(recover), body))
    case Finally(body, cleanup) => Some(Opening(FinallyFrame(cleanup, input), body))
    case Branch(c, yes, no) => Some(Opening(Choose(yes, no, input), c))
    case Let(slot, bound, body) => Some(Opening(Bind(slot, body), bound))
    case While(c, body, n) => Some(Opening(Condition(c, body, n, input), c))
    case _ => None
  }

  function BeginKind(s: Setting, t: Task, kind: NodeKind, input: V, max: nat, room: int, ticket: nat): Local {
    var pc := t.pc;
    var opening := OpeningOf(kind, input);
    if opening.Some? then Enter2(t, Finish(pc), opening.value.frame, opening.value.entry, input, max, room)
    else
      match kind
      case Literal(c) => Conclude(s, t, pc, Ok(s.h.influence(c, input)))
      case Input => Conclude(s, t, pc, Ok(input))
      case Load(slot) =>
        if slot >= |t.env| then Trap(t, InvalidBinding)
        else if t.env[slot].None? then Trap(t, MissingBinding)
        else Conclude(s, t, pc, Ok(s.h.influence(t.env[slot].value, input)))
      case Fail(e) => Conclude(s, t, pc, Err(e))
      case Request(port) => Ticketed(s, t, port, input, ticket)
      case Scope(port, _) => Ticketed(s, t, port, input, ticket)
      case If(yes, no) =>
        (match s.h.truth(input)
         case Ok(b) => Enter1(t, Finish(pc), if b then yes else no, input, max, room)
         case Err(e) => Conclude(s, t, pc, Err(e)))
      case Call(entry) => Enter1(t, Finish(pc), entry, input, max, room)
      case Fork(left, right, join) => Spawn(t, left, right, join, input)
  }

  function Ticketed(s: Setting, t: Task, port: nat, input: V, ticket: nat): Local {
    if port >= s.image.imports then Trap(t, InvalidImport)
    else if ticket >= U64_MAX then Trap(t, SequenceExhausted)
    else Await(t.(state := Waiting(ticket + 1, t.pc)), port, input)
  }

  /** The outcome a returning task carries to its next frame. */
  function Carried(h: Values, t: Task): Res
    requires t.state.Returning?
  {
    InfluenceTask(h, t, t.state.outcome)
  }

  /** The control dependencies a returning task keeps as its input. */
  function Kept(h: Values, t: Task): V
    requires t.state.Returning?
  {
    var control := h.retainResult(Carried(h, t));
    if t.input.Some? then h.influence(control, t.input.value) else control
  }

  function Unwind(s: Setting, t: Task, max: nat, room: int): Local
    requires t.state.Returning?
  {
    var outcome := Carried(s.h, t);
    var kept := t.(state := Ready, input := Some(Kept(s.h, t)));
    if t.stack == [] then Next(kept.(state := Done(outcome)))
    else
      var top := |t.stack| - 1;
      PopFrame(s, kept.(stack := t.stack[..top]), t.stack[top], outcome, max, room + 1)
  }

  function PopFrame(s: Setting, t: Task, frame: FrameKind, outcome: Res, max: nat, room: int): Local {
    match frame
    case Vacant => Trap(t, InvalidState)
    case Finish(node) => Conclude(s, t, node, outcome)
    case Continuation(node, _) => Conclude(s, t, node, outcome)
    case ThenFrame(after) => Next(if outcome.Ok? then Start(t, after, outcome.value) else Return(t, outcome))
    case CatchFrame(recover) =>
      if outcome.Err? && (!t.cancelled || t.cleaning > 0)
      then Next(Start(t, recover, Recovered(s.h, t, outcome.error)))
      else Next(Return(t, outcome))
    case FinallyFrame(cleanup, input) =>
      if !Fits(t, 1, max, room) then Trap(t, Frames)
      else Next(Start(Push(t, Cleaned(outcome)).(cleaning := t.cleaning + 1), cleanup, input))
    case Cleaned(original) =>
      var rest := t.(cleaning := if t.cleaning > 0 then t.cleaning - 1 else 0);
      Next(Return(rest, s.h.influenceResult(Settled(original, outcome), s.h.retainResult(original))))
    case Context(context) => Next(Return(t.(context := context), outcome))
    case Choose(yes, no, input) =>
      if outcome.Err? then Next(Return(t, outcome))
      else
        (match s.h.truth(outcome.value)
         case Ok(b) => Next(Start(t, if b then yes else no, s.h.influence(input, outcome.value)))
         case Err(e) => Next(Return(t, Err(e))))
    case Bind(slot, body) =>
      if outcome.Err? then Next(Return(t, outcome))
      else if slot >= |t.env| then Trap(t, InvalidBinding)
      else if !Fits(t, 1, max, room) then Trap(t, Frames)
      else
        var inner := Push(t, Unbind(slot, t.env[slot])).(env := t.env[slot := Some(outcome.value)]);
        Next(Start(inner, body, outcome.value))
    case Unbind(slot, previous) =>
      Next(Return(if slot < |t.env| then t.(env := t.env[slot := previous]) else t, outcome))
    case Condition(c, body, left, value) =>
      if outcome.Err? then Next(Return(t, outcome))
      else
        (match s.h.truth(outcome.value)
         case Err(e) => Next(Return(t, Err(e)))
         case Ok(b) =>
           if !b then Next(Return(t, Ok(s.h.influence(value, outcome.value))))
           else if left > 0
           then Enter1(t, Iteration(c, body, left - 1), body, s.h.influence(value, outcome.value), max, room)
           else Next(Return(t, Err(s.h.error(Iterations)))))
    case Iteration(c, body, left) =>
      if outcome.Err? then Next(Return(t, outcome))
      else Enter1(t, Condition(c, body, left, outcome.value), c, outcome.value, max, room)
  }

  function Recovered(h: Values, t: Task, error: E): V {
    if t.input.Some? then h.influence(h.errorValue(error), t.input.value) else h.errorValue(error)
  }

  /** A body's failure wins over its cleanup's; a cleanup failure replaces a success. */
  function Settled(body: Res, cleanup: Res): Res {
    if body.Err? then body else if cleanup.Err? then cleanup else body
  }

  // ----- shared storage -----

  /** Frames held by all tasks together. */
  function Occupied(tasks: seq<Task>): nat {
    if tasks == [] then 0 else Occupied(tasks[..|tasks| - 1]) + |tasks[|tasks| - 1].stack|
  }

  function Room(m: Machine): int { m.capacity - Occupied(m.tasks) }

  datatype Turn = Turn(m: Machine, out: Option<Advance>)

  function SetTask(m: Machine, i: nat, t: Task): Machine
    requires i < |m.tasks|
  {
    m.(tasks := m.tasks[i := t])
  }

  /** A transition that raises a fault returns it as the task's result. */
  function Trapped(s: Setting, m: Machine, i: nat, t: Task, fault: Fault): Machine
    requires i < |m.tasks|
  {
    SetTask(m, i, Return(t, FaultResult(s.h, t, fault)))
  }

  function FirstFree(tasks: seq<Task>, from: nat): (r: Option<nat>)
    ensures r.Some? ==> from <= r.value < |tasks| && tasks[r.value].state.Free?
    ensures r.Some? ==> forall k :: from <= k < r.value ==> !tasks[k].state.Free?
    ensures r.None? ==> forall k :: from <= k < |tasks| ==> !tasks[k].state.Free?
    decreases |tasks| - from
  {
    if from >= |tasks| then None
    else if tasks[from].state.Free? then Some(from)
    else FirstFree(tasks, from + 1)
  }

  function Child(slot: Task, parent: nat, t: Task, pc: nat, input: V): Task {
    Start(slot, pc, input).(parent := Some(parent), context := t.context, cleaning := t.cleaning, env := t.env)
  }

  function Forked(m: Machine, i: nat, t: Task, a: nat, b: nat, left: nat, right: nat, join: Join, input: V): Machine
    requires i < |m.tasks| && a < |m.tasks| && b < |m.tasks|
  {
    var children := m.tasks[a := Child(m.tasks[a], i, t, left, input)][b := Child(m.tasks[b], i, t, right, input)];
    m.(tasks := children[i := t.(state := Joining(JoinState(a, b, join, t.pc)))])
  }

  function SpawnTasks(s: Setting, m: Machine, i: nat, t: Task, left: nat, right: nat, join: Join, input: V): Machine
    requires i < |m.tasks|
  {
    var a := FirstFree(m.tasks, 0);
    if a.None? then Trapped(s, m, i, t, Tasks)
    else
      var b := FirstFree(m.tasks, a.value + 1);
      if b.None? then Trapped(s, m, i, t, Tasks)
      else Forked(m, i, t, a.value, b.value, left, right, join, input)
  }

  function Settle(s: Setting, m: Machine, i: nat, l: Local): Turn
    requires i < |m.tasks|
  {
    match l
    case Next(t) => Turn(SetTask(m, i, t), None)
    case Trap(t, fault) => Turn(Trapped(s, m, i, t, fault), None)
    case Spawn(t, left, right, join, input) => Turn(SpawnTasks(s, m, i, t, left, right, join, input), None)
    case Await(t, port, input) =>
      var position := if s.image.Has(t.pc) then s.image.nodes[t.pc].position else 0;
      Turn(SetTask(m, i, t).(ticket := m.ticket + 1),
           Some(Requested(Ask(i, m.ticket + 1, port, input, t.context, position, t.cleaning > 0))))
  }

  // ----- joins and cancellation -----

  predicate DoneAt(tasks: seq<Task>, i: nat) { i < |tasks| && tasks[i].state.Done? }

  /** Some strict ancestor of `i`, at most `fuel` parents up, is `root`. */
  predicate Under(tasks: seq<Task>, i: nat, root: nat, fuel: nat)
    decreases fuel
  {
    && i < |tasks| && fuel > 0 && tasks[i].parent.Some?
    && (tasks[i].parent.value == root || Under(tasks, tasks[i].parent.value, root, fuel - 1))
  }

  function CancelTree(tasks: seq<Task>, root: nat): (r: seq<Task>)
    ensures |r| == |tasks|
  {
    seq(|tasks|, i requires 0 <= i < |tasks| =>
      if i == root || Under(tasks, i, root, |tasks|) then tasks[i].(cancelled := true) else tasks[i])
  }

  /** The combined result of two finished branches. */
  function JoinResult(h: Values, join: Join, a: Res, b: Res, leftCancelled: bool): Res {
    var control := h.influence(h.retainResult(a), h.retainResult(b));
    var chosen :=
      match join
      case All => if a.Ok? && b.Ok? then h.pair(a.value, b.value) else if a.Err? then a else b
      case Race => if leftCancelled then b else a;
    h.influenceResult(chosen, control)
  }

  /** The tasks once a race with a finished branch has cancelled the other branch. */
  function Raced(tasks: seq<Task>, j: JoinState): (r: seq<Task>)
    ensures |r| == |tasks|
  {
    var a, b := DoneAt(tasks, j.left), DoneAt(tasks, j.right);
    if j.join.Race? && (a || b) then CancelTree(tasks, if a then j.right else j.left) else tasks
  }

  predicate BothDone(tasks: seq<Task>, j: JoinState) { DoneAt(tasks, j.left) && DoneAt(tasks, j.right) }

  /** The result two finished branches leave their parent. */
  function Merged(h: Values, tasks: seq<Task>, j: JoinState): Res
    requires BothDone(tasks, j)
  {
    JoinResult(h, j.join, tasks[j.left].state.outcome, tasks[j.right].state.outcome, Raced(tasks, j)[j.left].cancelled)
  }

  function JoinStep(s: Setting, m: Machine, i: nat): Turn
    requires i < |m.tasks| && m.tasks[i].state.Joining?
  {
    var j := m.tasks[i].state.pair;
    var tasks := Raced(m.tasks, j);
    if !BothDone(m.tasks, j) then Turn(m.(tasks := tasks), None)
    else
      var idle := Idle(m.limits.bindingsPerTask);
      Settle(s, m.(tasks := tasks[j.left := idle][j.right := idle]), i,
             Conclude(s, tasks[i], j.node, Merged(s.h, m.tasks, j)))
  }

  function Transition(s: Setting, m: Machine, i: nat): Turn
    requires i < |m.tasks|
  {
    var t := m.tasks[i];
    match t.state
    case Returning(_) => Settle(s, m, i, Unwind(s, t, m.limits.framesPerTask, Room(m)))
    case Joining(_) => JoinStep(s, m, i)
    case Ready => Settle(s, m, i, Begin(s, t, m.limits.framesPerTask, Room(m), m.ticket))
    case _ => Turn(m, None)
  }

  function Cancel(m: Machine): Machine
    requires |m.tasks| > 0
  {
    if Terminal(m.tasks[0].state) then m
    else m.(aborting := true, tasks := MarkLive(m.tasks))
  }

  function MarkLive(tasks: seq<Task>): (r: seq<Task>)
    ensures |r| == |tasks|
  {
    seq(|tasks|, i requires 0 <= i < |tasks| =>
      if tasks[i].state.Free? || Terminal(tasks[i].state) then tasks[i] else tasks[i].(cancelled := true))
  }

  // ----- retained control -----

  function TaskControl(h: Values, t: Task, control: V): V {
    if t.state.Free? then control
    else
      var c := if t.input.Some? then h.influence(control, t.input.value) else control;
      match t.state
      case Returning(r) => h.influence(c, h.retainResult(r))
      case Done(r) => h.influence(c, h.retainResult(r))
      case Halted(r, _) => h.influence(c, h.retainResult(r))
      case _ => c
  }

  function TasksControl(h: Values, tasks: seq<Task>): V {
    if tasks == [] then h.unit
    else TaskControl(h, tasks[|tasks| - 1], TasksControl(h, tasks[..|tasks| - 1]))
  }

  function FrameControl(h: Values, f: FrameKind, control: V): V {
    match f
    case FinallyFrame(_, input) => h.influence(control, input)
    case Choose(_, _, input) => h.influence(control, input)
    case Condition(_, _, _, value) => h.influence(control, value)
    case Cleaned(r) => h.influence(control, h.retainResult(r))
    case _ => control
  }

  function FramesControl(h: Values, frames: seq<FrameKind>, control: V): V {
    if frames == [] then control
    else FrameControl(h, frames[|frames| - 1], FramesControl(h, frames[..|frames| - 1], control))
  }

  /** Everything live tasks and frames depend on. `layout` lists the frames in the
      order in which the shared pool happens to store them. */
  function RetainControl(h: Values, tasks: seq<Task>, layout: seq<FrameKind>): V {
    FramesControl(h, layout, TasksControl(h, tasks))
  }

  function TerminalFault(h: Values, tasks: seq<Task>, layout: seq<FrameKind>, fault: Fault): Res {
    h.influenceResult(Err(h.error(fault)), RetainControl(h, tasks, layout))
  }

  /** All frames of all tasks, as a multiset. */
  function AllFrames(tasks: seq<Task>): multiset<FrameKind> {
    if tasks == [] then multiset{} else AllFrames(tasks[..|tasks| - 1]) + multiset(tasks[|tasks| - 1].stack)
  }

  ghost predicate IsLayout(m: Machine, layout: seq<FrameKind>) { multiset(layout) == AllFrames(m.tasks) }

  // ----- the scheduler -----

  predicate CancelsHere(t: Task) { t.cancelled && t.cleaning == 0 }

  /** A cancelled task outside cleanup drops what it was doing and returns `Cancelled`. */
  function Convert(h: Values, t: Task): Task {
    if CancelsHere(t) && !t.state.Joining? && !(t.state.Returning? && t.state.outcome.Err?)
    then Return(t, FaultResult(h, t, Cancelled))
    else t
  }

  predicate JoinReady(tasks: seq<Task>, j: JoinState) {
    var a, b := DoneAt(tasks, j.left), DoneAt(tasks, j.right);
    || (a && b)
    || (j.join.Race? && ((a && j.right < |tasks| && !tasks[j.right].cancelled) ||
                         (b && j.left < |tasks| && !tasks[j.left].cancelled)))
  }

  datatype Glance = Skip | Report | Run

  /** What the scheduler does on reaching slot `i`. */
  function Look(tasks: seq<Task>, i: nat): Glance
    requires i < |tasks|
  {
    match tasks[i].state
    case Free => Skip
    case Done(_) => Skip
    case Waiting(_, _) => if CancelsHere(tasks[i]) then Report else Skip
    case Joining(j) => if JoinReady(tasks, j) then Run else Skip
    case _ => Run
  }

  function Scan(tasks: seq<Task>, cursor: nat, offset: nat): (r: Option<nat>)
    requires |tasks| > 0
    ensures r.Some? ==> r.value < |tasks| && Look(tasks, r.value) != Skip
    decreases |tasks| - offset
  {
    if offset >= |tasks| then None
    else
      var i := (cursor + offset) % |tasks|;
      if Look(tasks, i) != Skip then Some(i) else Scan(tasks, cursor, offset + 1)
  }

  predicate QuotaSpent(m: Machine) {
    !m.aborting && m.limits.maxSteps.Some? && m.steps >= m.limits.maxSteps.value
  }

  /** One pass of the scheduling loop inside `advance`. */
  function Iterate(s: Setting, m: Machine, layout: seq<FrameKind>): Turn
    requires |m.tasks| > 0
  {
    if Terminal(m.tasks[0].state) then Turn(m, Some(Finished(m.tasks[0].state.outcome)))
    else Schedule(s, if QuotaSpent(m) then Cancel(m) else m, layout)
  }

  function Schedule(s: Setting, m: Machine, layout: seq<FrameKind>): Turn
    requires |m.tasks| > 0
  {
    var pick := Scan(m.tasks, m.cursor, 0);
    if pick.None? then Turn(m, Some(Blocked))
    else if m.tasks[pick.value].state.Waiting?
    then Turn(m, Some(Withdraw(pick.value, m.tasks[pick.value].state.ticket)))
    else Dispatch(s, SetTask(m, pick.value, Convert(s.h, m.tasks[pick.value])), pick.value, layout)
  }

  function Dispatch(s: Setting, m: Machine, i: nat, layout: seq<FrameKind>): Turn
    requires i < |m.tasks|
  {
    if m.aborting && m.cleanupSteps >= m.limits.cleanupSteps then Halt(s, m, layout)
    else Transition(s, Spend(m, i), i)
  }

  function Spend(m: Machine, i: nat): Machine
    requires i < |m.tasks|
  {
    var cursor := (i + 1) % |m.tasks|;
    if m.aborting then m.(cleanupSteps := m.cleanupSteps + 1, cursor := cursor)
    else m.(steps := if m.steps < U64_MAX then m.steps + 1 else m.steps, cursor := cursor)
  }

  function Halt(s: Setting, m: Machine, layout: seq<FrameKind>): Turn
    requires |m.tasks| > 0
  {
    var result := TerminalFault(s.h, m.tasks, layout, Fuel);
    var root := m.tasks[0].(state := Halted(result, JoinOf(m.tasks[0].state)));
    Turn(SetTask(m, 0, root), Some(Finished(result)))
  }

  // ----- host responses -----

  datatype Delivery = Delivery(m: Machine, refusal: Option<Fault>)

  function Pending(m: Machine, i: nat, ticket: nat): bool
    requires |m.tasks| > 0
  {
    && !Terminal(m.tasks[0].state)
    && i < |m.tasks| && m.tasks[i].state.Waiting? && m.tasks[i].state.ticket == ticket
  }

  function Charged(h: Values, t: Task, control: V): Task {
    t.(input := Some(if t.input.Some? then h.influence(t.input.value, control) else control))
  }

  function Deliver(s: Setting, m: Machine, i: nat, ticket: nat, event: HostEvent): Delivery
    requires |m.tasks| > 0
  {
    if !Pending(m, i, ticket) then Delivery(m, Some(StaleEvent))
    else
      Stored(m, i, Answer(s, m.tasks[i], event, m.limits.framesPerTask, Room(m)))
  }

  function Stored(m: Machine, i: nat, l: Local): Delivery
    requires i < |m.tasks|
  {
    Delivery(SetTask(m, i, l.task), if l.Trap? then Some(l.fault) else None)
  }

  /** What an accepted response does to the task waiting for it; a trap is a refusal. */
  function Answer(s: Setting, t: Task, event: HostEvent, max: nat, room: int): Local
    requires t.state.Waiting?
  {
    match event
    case Complete(result) => Conclude(s, Charged(s.h, t, s.h.retainResult(result)), t.state.node, result)
    case Enter(context) => EnterScope(s, t, context, max, room)
    case Continue(entry, input) =>
      if !s.image.Has(t.state.node) then Trap(t, InvalidNode)
      else if !s.image.nodes[t.state.node].kind.Request? then Trap(t, StaleEvent)
      else Extend(s, Charged(s.h, t, s.h.retainControl(input)), entry, input, max, room)
  }

  function EnterScope(s: Setting, t: Task, context: nat, max: nat, room: int): Local
    requires t.state.Waiting?
  {
    var node := t.state.node;
    if !s.image.Has(node) then Trap(t, InvalidNode)
    else if !s.image.nodes[node].kind.Scope? then Trap(t, StaleEvent)
    else if !Fits(t, 2, max, room) then Trap(t, Frames)
    else
      var inner := Push(Push(t, Finish(node)), Context(t.context)).(context := context);
      if t.input.None? then Trap(inner, Type)
      else Next(Start(inner, s.image.nodes[node].kind.body, t.input.value))
  }

  function Extend(s: Setting, t: Task, entry: nat, input: V, max: nat, room: int): Local
    requires t.state.Waiting?
  {
    if !s.image.Has(entry) then Trap(t, InvalidNode)
    else if !Fits(t, 1, max, room) then Trap(t, Frames)
    else
      var charged := if t.input.Some? then s.h.influence(input, t.input.value) else input;
      Next(Start(Push(t, Continuation(t.state.node, entry)), entry, charged))
  }

  // ----- admission and growth -----

  function Initial(image: Image, tasks: nat, capacity: nat, limits: Limits, input: V, context: nat): Machine
    requires tasks > 0
  {
    var root := Idle(limits.bindingsPerTask).(state := Ready, pc := image.entry, input := Some(input),
      context := context);
    Machine(seq(tasks, i => if i == 0 then root else Idle(limits.bindingsPerTask)),
            capacity, limits, 0, 0, 0, 0, false, image.id)
  }

  function Widen(t: Task, width: nat): Task {
    if |t.env| <= width then t.(env := t.env + seq(width - |t.env|, _ => None)) else t
  }

  /** Suspend, hand the same slots back in larger storage, and resume. */
  function Grow(m: Machine, tasks: nat, capacity: nat, frames: nat, bindings: nat): Machine
    requires |m.tasks| <= tasks
  {
    m.(tasks := seq(tasks, i requires 0 <= i < tasks =>
         if i < |m.tasks| then Widen(m.tasks[i], bindings) else Idle(bindings)),
       capacity := capacity,
       limits := m.limits.(framesPerTask := frames, bindingsPerTask := bindings))
  }
}
