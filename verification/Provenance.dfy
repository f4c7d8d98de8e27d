/** No provenance is lost: what the input and every response carried, the result carries. */
module Provenance {
  import opened Program
  import opened Machine
  import opened Stacks
  import opened Forest
  import opened Runs

  /** One label, as the set of values and errors that carry it. */
  datatype Mark = Mark(value: V -> bool, error: E -> bool)

  predicate Marked(k: Mark, r: Res) {
    match r
    case Ok(v) => k.value(v)
    case Err(e) => k.error(e)
  }

  /** The host's value operations never drop the label. */
  ghost predicate Tracks(h: Values, k: Mark) {
    && (forall v, c :: k.value(v) || k.value(c) ==> k.value(h.influence(v, c)))
    && (forall r: Res, c :: Marked(k, r) || k.value(c) ==> Marked(k, h.influenceResult(r, c)))
    && (forall v :: k.value(v) ==> k.value(h.retainControl(v)))
    && (forall r: Res :: Marked(k, r) ==> k.value(h.retainResult(r)))
    && (forall e :: k.error(e) ==> k.value(h.errorValue(e)))
  }

  /** Some outcome saved during a cleanup on this stack carries the label. */
  predicate SavedMark(k: Mark, stack: seq<FrameKind>) {
    stack != [] &&
    var f := stack[|stack| - 1];
    (f.Cleaned? && Marked(k, f.outcome)) || SavedMark(k, stack[..|stack| - 1])
  }

  /** Where a live task keeps the label: its input, its result, or an outcome saved below a cleanup. */
  predicate Held(k: Mark, t: Task) {
    match t.state
    case Free => false
    case Done(r) => Marked(k, r)
    case Halted(r, _) => Marked(k, r)
    case Returning(r) => Marked(k, r) || InputMark(k, t) || SavedMark(k, t.stack)
    case _ => InputMark(k, t) || SavedMark(k, t.stack)
  }

  predicate InputMark(k: Mark, t: Task) { t.input.Some? && k.value(t.input.value) }

  // ----- one task -----

  lemma SavedPush(k: Mark, t: Task, f: FrameKind)
    ensures SavedMark(k, Push(t, f).stack) <==> (f.Cleaned? && Marked(k, f.outcome)) || SavedMark(k, t.stack)
  {
    assert Push(t, f).stack[..|t.stack|] == t.stack;
  }

  lemma FaultHolds(h: Values, k: Mark, t: Task, fault: Fault)
    requires Tracks(h, k) && Held(k, t) && !t.state.Joining? && !t.state.Halted?
    requires t.state.Done? ==> t.stack == []
    ensures Held(k, Return(t, FaultResult(h, t, fault)))
  {
    hide SavedMark;
  }

  lemma ConvertHolds(h: Values, k: Mark, t: Task)
    requires Tracks(h, k) && Held(k, t) && !t.state.Halted? && (t.state.Done? ==> t.stack == [])
    ensures Held(k, Convert(h, t))
  {
    if !t.state.Joining? {
      FaultHolds(h, k, t, Cancelled);
    }
  }

  lemma ConcludeHolds(s: Setting, k: Mark, t: Task, node: nat, r: Res)
    requires Tracks(s.h, k) && s.image.Has(node)
    requires Marked(k, r) || InputMark(k, t) || SavedMark(k, t.stack)
    ensures Held(k, Conclude(s, t, node, r).task)
  {
    hide SavedMark;
  }

  lemma BeginHolds(s: Setting, k: Mark, t: Task, max: nat, room: int, ticket: nat)
    requires Tracks(s.h, k) && Held(k, t) && t.state.Ready? && t.input.Some? && s.image.Has(t.pc)
    ensures Held(k, After(s.h, Begin(s, t, max, room, ticket)))
  {
    var kind := s.image.nodes[t.pc].kind;
    var kept := Armed(s, t);
    SavedPush(k, kept, Finish(t.pc));
    var opening := OpeningOf(kind, t.input.value);
    if opening.Some? {
      SavedPush(k, Push(kept, Finish(t.pc)), opening.value.frame);
      hide SavedMark;
    } else {
      hide SavedMark;
      BeginLeafHolds(s, k, kept, kind, t.input.value, max, room, ticket);
    }
  }

  lemma BeginLeafHolds(s: Setting, k: Mark, t: Task, kind: NodeKind, input: V, max: nat, room: int, ticket: nat)
    requires Tracks(s.h, k) && t.state.Ready? && t.input.Some? && s.image.Has(t.pc)
    requires OpeningOf(kind, input).None?
    requires (k.value(input) && InputMark(k, t)) || SavedMark(k, t.stack)
    ensures Held(k, After(s.h, BeginKind(s, t, kind, input, max, room, ticket)))
  {
    SavedPush(k, t, Finish(t.pc));
    hide SavedMark;
    match kind
    case Literal(c) => ConcludeHolds(s, k, t, t.pc, Ok(s.h.influence(c, input)));
    case Input => ConcludeHolds(s, k, t, t.pc, Ok(input));
    case Load(slot) =>
      if slot < |t.env| && t.env[slot].Some? {
        ConcludeHolds(s, k, t, t.pc, Ok(s.h.influence(t.env[slot].value, input)));
      }
    case Fail(e) => ConcludeHolds(s, k, t, t.pc, Err(e));
    case If(_, _) =>
      if s.h.truth(input).Err? {
        ConcludeHolds(s, k, t, t.pc, Err(s.h.truth(input).error));
      }
    case _ =>
  }

  lemma UnwindHolds(s: Setting, k: Mark, t: Task, max: nat, room: int)
    requires Tracks(s.h, k) && Held(k, t) && t.state.Returning? && t.input.Some?
    requires StackOk(s.image, |t.env|, t.stack) && |t.stack| <= max && 0 <= room
    ensures Held(k, Unwind(s, t, max, room).task)
  {
    if t.stack != [] {
      var top := |t.stack| - 1;
      var frame := t.stack[top];
      var below := t.(state := Ready, input := Some(Kept(s.h, t)), stack := t.stack[..top]);
      assert FrameOk(s.image, |t.env|, frame);
      PopHolds(s, k, below, frame, Carried(s.h, t), max, room + 1);
    }
  }

  /** The label reaches the frame below in the outcome and the kept input, in the popped
      frame's saved outcome, or in an outcome saved deeper down. */
  lemma PopHolds(s: Setting, k: Mark, t: Task, frame: FrameKind, outcome: Res, max: nat, room: int)
    requires Tracks(s.h, k) && t.state.Ready? && t.input.Some? && FrameOk(s.image, |t.env|, frame)
    requires |t.stack| < max && 1 <= room
    requires
      || (Marked(k, outcome) && InputMark(k, t))
      || (frame.Cleaned? && Marked(k, frame.outcome))
      || SavedMark(k, t.stack)
    ensures Held(k, PopFrame(s, t, frame, outcome, max, room).task)
  {
    hide SavedMark, Conclude;
    SavedPush(k, t, Cleaned(outcome));
    match frame
    case Finish(node) => ConcludeHolds(s, k, t, node, outcome);
    case Continuation(node, _) => ConcludeHolds(s, k, t, node, outcome);
    case Bind(slot, _) => SavedPush(k, t, Unbind(slot, t.env[slot]));
    case Condition(c, body, left, _) =>
      if left > 0 { SavedPush(k, t, Iteration(c, body, left - 1)); }
    case Iteration(c, body, left) =>
      if outcome.Ok? { SavedPush(k, t, Condition(c, body, left, outcome.value)); }
    case _ =>
  }

  /** The label a response brings, provided its ticket is live. */
  predicate Brings(s: Setting, k: Mark, t: Task, event: HostEvent)
    requires t.state.Waiting?
  {
    match event
    case Complete(r) => Marked(k, r)
    case Enter(_) => false
    case Continue(_, input) =>
      s.image.Has(t.state.node) && s.image.nodes[t.state.node].kind.Request? && k.value(input)
  }

  /** A response with a live ticket keeps the task's label and adds its own, even when it
      is refused afterwards. */
  lemma AnswerHolds(s: Setting, k: Mark, t: Task, event: HostEvent, max: nat, room: int)
    requires Tracks(s.h, k) && t.state.Waiting? && t.input.Some? && s.image.Has(t.state.node)
    requires Held(k, t) || Brings(s, k, t, event)
    ensures Held(k, Answer(s, t, event, max, room).task)
  {
    var node := t.state.node;
    match event
    case Complete(r) => ConcludeHolds(s, k, Charged(s.h, t, s.h.retainResult(r)), node, r);
    case Enter(_) =>
      SavedPush(k, t, Finish(node));
      SavedPush(k, Push(t, Finish(node)), Context(t.context));
      hide SavedMark;
    case Continue(entry, _) =>
      SavedPush(k, t, Continuation(node, entry));
      hide SavedMark;
  }

  // ----- all tasks -----

  ghost predicate AnyHeld(k: Mark, tasks: seq<Task>) {
    exists i :: 0 <= i < |tasks| && Held(k, tasks[i])
  }

  /** A finished machine carries the label in its result; an unfinished one in some live task. */
  ghost predicate Carries(k: Mark, m: Machine) {
    |m.tasks| > 0 &&
    if Terminal(m.tasks[0].state) then Marked(k, m.tasks[0].state.outcome) else AnyHeld(k, m.tasks)
  }

  lemma JoinHolds(s: Setting, k: Mark, m: Machine, tree: Tree, i: nat, at: nat)
    requires Tracks(s.h, k) && Inv(s, m, tree) && i in Ids(tree) && i < |m.tasks| && m.tasks[i].state.Joining?
    requires at < |m.tasks| && Held(k, m.tasks[at])
    ensures AnyHeld(k, JoinStep(s, m, i).m.tasks)
  {
    JoinEffect(s, m, tree, i);
    ChildrenIn(m.tasks, tree, i);
    hide CleanedIn, Occupied, Shape, SavedMark, JoinStep, Inv;
    var j := m.tasks[i].state.pair;
    var raced := Raced(m.tasks, j);
    var n := JoinStep(s, m, i).m;
    assert Held(k, raced[at]);
    if BothDone(m.tasks, j) && (at == i || at == j.left || at == j.right) {
      MergedMarks(s.h, k, m.tasks, j);
      ConcludeHolds(s, k, raced[i], j.node, Merged(s.h, m.tasks, j));
      assert Held(k, n.tasks[i]);
    } else {
      assert Held(k, n.tasks[at]);
    }
  }

  lemma MergedMarks(h: Values, k: Mark, tasks: seq<Task>, j: JoinState)
    requires Tracks(h, k) && BothDone(tasks, j)
    ensures Held(k, tasks[j.left]) || Held(k, tasks[j.right]) ==> Marked(k, Merged(h, tasks, j))
  {
  }

  lemma SpawnHolds(s: Setting, k: Mark, m: Machine, tree: Tree, i: nat, at: nat)
    requires Tracks(s.h, k) && Inv(s, m, tree) && i in Ids(tree) && i < |m.tasks| && m.tasks[i].state.Ready?
    requires at < |m.tasks| && Held(k, m.tasks[at]) && s.image.nodes[m.tasks[i].pc].kind.Fork?
    ensures AnyHeld(k, Transition(s, m, i).m.tasks)
  {
    ShapeAt(m.tasks, tree, None, 0, i);
    var t := m.tasks[i];
    BeginOk(s, t, m.limits.framesPerTask, Room(m), m.ticket);
    ForkArms(s, t, m.limits.framesPerTask, Room(m), m.ticket);
    var l := Begin(s, t, m.limits.framesPerTask, Room(m), m.ticket);
    SpawnEffect(s, m, i, l.task, l.left, l.right, l.join, l.shared);
    hide CleanedIn, Occupied, Shape, SavedMark, Begin, SpawnTasks, Inv;
    var n := Transition(s, m, i).m;
    assert Held(k, n.tasks[at]);
  }

  lemma ForkArms(s: Setting, t: Task, max: nat, room: int, ticket: nat)
    requires s.image.Has(t.pc) && t.input.Some? && s.image.nodes[t.pc].kind.Fork?
    ensures Begin(s, t, max, room, ticket).task == Armed(s, t)
  {
  }

  lemma TransitionHolds(s: Setting, k: Mark, m: Machine, tree: Tree, i: nat, at: nat)
    requires Tracks(s.h, k) && Inv(s, m, tree) && i in Ids(tree) && i < |m.tasks|
    requires at < |m.tasks| && Held(k, m.tasks[at])
    ensures AnyHeld(k, Transition(s, m, i).m.tasks)
  {
    ShapeAt(m.tasks, tree, None, 0, i);
    hide CleanedIn, Occupied, SavedMark, Restored, RestoredContext;
    var t := m.tasks[i];
    var max := m.limits.framesPerTask;
    match t.state
    case Returning(_) =>
      UnwindOk(s, t, max, Room(m));
      if at == i {
        UnwindHolds(s, k, t, max, Room(m));
      }
      hide Unwind, Shape, Inv;
      assert Held(k, Transition(s, m, i).m.tasks[at]);
    case Joining(_) => JoinHolds(s, k, m, tree, i, at);
    case Ready =>
      BeginOk(s, t, max, Room(m), m.ticket);
      if s.image.nodes[t.pc].kind.Fork? {
        SpawnHolds(s, k, m, tree, i, at);
      } else {
        if at == i {
          BeginHolds(s, k, t, max, Room(m), m.ticket);
        }
        hide Begin, Shape, Inv;
        assert Held(k, Transition(s, m, i).m.tasks[at]);
      }
    case _ =>
  }

  // ----- retained control -----

  lemma {:induction false} TasksControlMarks(h: Values, k: Mark, tasks: seq<Task>, i: nat)
    requires Tracks(h, k) && i < |tasks| && Held(k, tasks[i]) && !SavedMark(k, tasks[i].stack)
    ensures k.value(TasksControl(h, tasks))
  {
    hide SavedMark;
    var n := |tasks| - 1;
    if i < n {
      TasksControlMarks(h, k, tasks[..n], i);
    }
  }

  lemma {:induction false} FramesControlKeeps(h: Values, k: Mark, frames: seq<FrameKind>, control: V)
    requires Tracks(h, k)
    requires k.value(control) || exists f :: f in frames && f.Cleaned? && Marked(k, f.outcome)
    ensures k.value(FramesControl(h, frames, control))
  {
    if frames != [] {
      var n := |frames| - 1;
      if !(frames[n].Cleaned? && Marked(k, frames[n].outcome)) {
        if !k.value(control) {
          var f :| f in frames && f.Cleaned? && Marked(k, f.outcome);
          assert f in frames[..n];
        }
        FramesControlKeeps(h, k, frames[..n], control);
      }
    }
  }

  lemma {:induction false} SavedFrame(k: Mark, stack: seq<FrameKind>) returns (f: FrameKind)
    requires SavedMark(k, stack)
    ensures f in stack && f.Cleaned? && Marked(k, f.outcome)
  {
    var n := |stack| - 1;
    if stack[n].Cleaned? && Marked(k, stack[n].outcome) {
      f := stack[n];
    } else {
      f := SavedFrame(k, stack[..n]);
    }
  }

  lemma {:induction false} FrameListed(tasks: seq<Task>, i: nat, f: FrameKind)
    requires i < |tasks| && f in tasks[i].stack
    ensures f in AllFrames(tasks)
  {
    var n := |tasks| - 1;
    if i < n {
      FrameListed(tasks[..n], i, f);
    }
  }

  /** A fault that stops the whole machine carries what any live task or frame carried. */
  lemma TerminalFaultMarks(h: Values, k: Mark, m: Machine, layout: seq<FrameKind>, fault: Fault, i: nat)
    requires Tracks(h, k) && IsLayout(m, layout) && i < |m.tasks| && Held(k, m.tasks[i])
    ensures Marked(k, TerminalFault(h, m.tasks, layout, fault))
  {
    var control := TasksControl(h, m.tasks);
    if SavedMark(k, m.tasks[i].stack) {
      var f := SavedFrame(k, m.tasks[i].stack);
      FrameListed(m.tasks, i, f);
      assert f in multiset(layout);
    } else {
      TasksControlMarks(h, k, m.tasks, i);
    }
    FramesControlKeeps(h, k, layout, control);
  }

  lemma {:induction false} FramesSame(tasks: seq<Task>, other: seq<Task>)
    requires |tasks| == |other|
    requires forall k :: 0 <= k < |tasks| ==> other[k].stack == tasks[k].stack
    ensures AllFrames(other) == AllFrames(tasks)
  {
    if tasks != [] {
      FramesSame(tasks[..|tasks| - 1], other[..|tasks| - 1]);
    }
  }

  // ----- host calls -----

  lemma {:induction false} PreparedHolds(s: Setting, k: Mark, m: Machine, tree: Tree, at: nat)
    requires Tracks(s.h, k) && Inv(s, m, tree) && at < |m.tasks| && Held(k, m.tasks[at]) && Acting(s, m).Some?
    ensures Held(k, Acting(s, m).value.0.tasks[at])
  {
    var n := Quoted(m);
    CancelKeeps(s, m, tree);
    if n.tasks[at].state.Done? {
      ShapeAt(n.tasks, tree, None, 0, at);
    }
    hide CleanedIn, Occupied, Shape, SavedMark, Scan;
    assert Held(k, n.tasks[at]);
    assert !n.tasks[at].state.Halted? by { ShapeHalted(n.tasks, tree, at); }
    ConvertHolds(s.h, k, n.tasks[at]);
  }

  lemma ShapeHalted(tasks: seq<Task>, tree: Tree, i: nat)
    requires Shape(tasks, tree, None, 0) && Covers(tasks, tree) && tree.id == 0 && Distinct(tree)
    requires i < |tasks| && |tasks| > 0 && !Terminal(tasks[0].state)
    ensures !tasks[i].state.Halted?
  {
    if !tasks[i].state.Free? {
      ShapeAt(tasks, tree, None, 0, i);
    }
  }

  /** A pass that performs no transition leaves its machine as it was, up to cancellation
      marks, or halts it. */
  lemma HaltCarries(s: Setting, k: Mark, m: Machine, tree: Tree, layout: seq<FrameKind>)
    requires Tracks(s.h, k) && Inv(s, m, tree) && Carries(k, m) && IsLayout(m, layout)
    requires !Terminal(m.tasks[0].state) && Acting(s, m).None?
    ensures Carries(k, Iterate(s, m, layout).m)
  {
    hide Inv, Iterate, Acting, Tracks, Halt, SavedMark, AllFrames;
    RootLive(s, m, tree);
    var x := IdleIs(s, m, layout);
    var n := Quoted(m);
    QuotedRoot(m);
    var at :| 0 <= at < |m.tasks| && Held(k, m.tasks[at]);
    QuotedHeld(k, m, at);
    if x.Some? {
      CancelKeeps(s, m, tree);
      QuotedFrames(m);
      HaltMarks(s, k, n, tree, layout, x.value, at);
      HaltedHeld(s, k, SetTask(n, x.value, Convert(s.h, n.tasks[x.value])), layout);
    }
  }

  lemma HaltedHeld(s: Setting, k: Mark, m: Machine, layout: seq<FrameKind>)
    requires |m.tasks| > 0 && Marked(k, Halt(s, m, layout).m.tasks[0].state.outcome)
    ensures Carries(k, Halt(s, m, layout).m)
  {
    hide TerminalFault;
  }

  lemma QuotedHeld(k: Mark, m: Machine, at: nat)
    requires |m.tasks| > 0 && at < |m.tasks| && Held(k, m.tasks[at])
    ensures at < |Quoted(m).tasks| && Held(k, Quoted(m).tasks[at])
  {
    hide SavedMark;
  }

  lemma QuotedFrames(m: Machine)
    requires |m.tasks| > 0
    ensures AllFrames(Quoted(m).tasks) == AllFrames(m.tasks)
  {
    FramesSame(m.tasks, Quoted(m).tasks);
  }

  lemma HaltMarks(s: Setting, k: Mark, m: Machine, tree: Tree, layout: seq<FrameKind>, i: nat, at: nat)
    requires Tracks(s.h, k) && Inv(s, m, tree) && IsLayout(m, layout) && !Terminal(m.tasks[0].state)
    requires i < |m.tasks| && at < |m.tasks| && Held(k, m.tasks[at])
    ensures Marked(k, Halt(s, SetTask(m, i, Convert(s.h, m.tasks[i])), layout).m.tasks[0].state.outcome)
  {
    if m.tasks[at].state.Done? {
      ShapeAt(m.tasks, tree, None, 0, at);
    }
    ShapeHalted(m.tasks, tree, at);
    hide CleanedIn, Occupied, Shape, SavedMark;
    ConvertHolds(s.h, k, m.tasks[at]);
    var c := SetTask(m, i, Convert(s.h, m.tasks[i]));
    FramesSame(m.tasks, c.tasks);
    assert Held(k, c.tasks[at]);
    TerminalFaultMarks(s.h, k, c, layout, Fuel, at);
  }

  /** A done root is the only live task left, so it carries the label itself. */
  lemma DoneCarries(s: Setting, k: Mark, m: Machine, tree: Tree)
    requires Inv(s, m, tree) && AnyHeld(k, m.tasks) && !m.tasks[0].state.Halted?
    ensures Carries(k, m)
  {
    if m.tasks[0].state.Done? {
      var at :| 0 <= at < |m.tasks| && Held(k, m.tasks[at]);
      assert tree == Solo(0);
      assert at in Ids(tree);
    }
  }

  lemma TickCarries(s: Setting, k: Mark, m: Machine, tree: Tree, layout: seq<FrameKind>)
    requires Tracks(s.h, k) && Inv(s, m, tree) && Carries(k, m) && IsLayout(m, layout)
    ensures Carries(k, Iterate(s, m, layout).m)
  {
    if !Terminal(m.tasks[0].state) {
      var a := Acting(s, m);
      if a.None? {
        HaltCarries(s, k, m, tree, layout);
      } else {
        var at :| 0 <= at < |m.tasks| && Held(k, m.tasks[at]);
        PreparedHolds(s, k, m, tree, at);
        ActingMoves(s, m, layout);
        ActingKeeps(s, m, tree);
        hide Iterate, Acting, Transition, Inv;
        TransitionHolds(s, k, a.value.0, tree, a.value.1, at);
        var grown := TransitionKeeps(s, a.value.0, tree, a.value.1);
        NeverHalts(s, a.value.0, tree, a.value.1);
        DoneCarries(s, k, Transition(s, a.value.0, a.value.1).m, grown);
      }
    }
  }

  lemma NeverHalts(s: Setting, m: Machine, tree: Tree, i: nat)
    requires Inv(s, m, tree) && i in Ids(tree) && i < |m.tasks| && !Terminal(m.tasks[0].state)
    ensures |Transition(s, m, i).m.tasks| > 0 && !Transition(s, m, i).m.tasks[0].state.Halted?
  {
    RootLive(s, m, tree);
    if m.tasks[i].state.Ready? || m.tasks[i].state.Returning? {
      hide Inv, Transition;
      RunsAs(s, m, tree, i);
    } else if m.tasks[i].state.Joining? {
      JoinEffect(s, m, tree, i);
      hide Inv, JoinStep, Raced, Conclude;
    }
  }

  /** The label this call brings in from the host. */
  predicate Receives(s: Setting, k: Mark, m: Machine, move: Move)
    requires |m.tasks| > 0
  {
    move.Respond? && Pending(m, move.task, move.ticket) && Brings(s, k, m.tasks[move.task], move.event)
  }

  lemma RespondCarries(s: Setting, k: Mark, m: Machine, tree: Tree, move: Move)
    requires Tracks(s.h, k) && Inv(s, m, tree) && move.Respond?
    requires Carries(k, m) || Receives(s, k, m, move)
    ensures Carries(k, Apply(s, m, move).m)
  {
    var i, ticket, event := move.task, move.ticket, move.event;
    if Pending(m, i, ticket) {
      ShapeAt(m.tasks, tree, None, 0, i);
      DeliverKeeps(s, m, tree, i, ticket, event);
      var max := m.limits.framesPerTask;
      DeliverOk(s, m.tasks[i], event, max, Room(m));
      hide CleanedIn, Occupied, Restored, RestoredContext, SavedMark;
      var n := Deliver(s, m, i, ticket, event).m;
      var at := i;
      if !Receives(s, k, m, move) {
        at :| 0 <= at < |m.tasks| && Held(k, m.tasks[at]);
      }
      if at == i {
        AnswerHolds(s, k, m.tasks[i], event, max, Room(m));
      }
      assert Held(k, n.tasks[at]);
      DoneCarries(s, k, n, tree);
    }
  }

  lemma ApplyCarries(s: Setting, k: Mark, m: Machine, tree: Tree, move: Move)
    requires Tracks(s.h, k) && Inv(s, m, tree) && Legal(m, move)
    requires Carries(k, m) || Receives(s, k, m, move)
    ensures Carries(k, Apply(s, m, move).m)
  {
    match move
    case Tick(layout) => TickCarries(s, k, m, tree, layout);
    case Respond(_, _, _) => RespondCarries(s, k, m, tree, move);
    case Abort =>
      if !Terminal(m.tasks[0].state) {
        var at :| 0 <= at < |m.tasks| && Held(k, m.tasks[at]);
        assert Held(k, Cancel(m).tasks[at]);
      }
    case Resize(tasks, capacity, frames, bindings) =>
      if !Terminal(m.tasks[0].state) {
        var at :| 0 <= at < |m.tasks| && Held(k, m.tasks[at]);
        assert Held(k, Grow(m, tasks, capacity, frames, bindings).tasks[at]);
      }
  }

  // ----- whole runs -----

  lemma {:induction false} RunCarries(s: Setting, k: Mark, states: seq<Machine>, moves: seq<Move>, tree: Tree)
    requires Tracks(s.h, k) && IsRun(s, states, moves) && Inv(s, states[0], tree)
    requires Carries(k, states[0]) || exists j :: 0 <= j < |moves| && Receives(s, k, states[j], moves[j])
    ensures Carries(k, states[|moves|])
  {
    hide Inv, Apply, Legal, Carries, Receives, Tracks;
    if moves != [] {
      var next := ApplyKeeps(s, states[0], tree, moves[0]);
      if Carries(k, states[0]) || Receives(s, k, states[0], moves[0]) {
        ApplyCarries(s, k, states[0], tree, moves[0]);
      } else {
        var j :| 0 <= j < |moves| && Receives(s, k, states[j], moves[j]);
        assert Receives(s, k, states[1..][j - 1], moves[1..][j - 1]);
      }
      RunCarries(s, k, states[1..], moves[1..], next);
    }
  }

  /** For every label a host tracks: if the initial input carries it, or any response that
      named a live ticket carries it, then so does whatever result the run reports. */
  lemma ResultKeepsLabel(s: Setting, k: Mark, l: Launch, states: seq<Machine>, moves: seq<Move>, layout: seq<FrameKind>)
    requires Launched(s, l, states, moves) && Tracks(s.h, k) && IsLayout(states[|moves|], layout)
    requires k.value(l.input) || exists j :: 0 <= j < |moves| && Receives(s, k, states[j], moves[j])
    ensures var out := Iterate(s, states[|moves|], layout).out;
      out.Some? && out.value.Finished? ==> Marked(k, out.value.result)
  {
    FirstInv(s, l);
    if k.value(l.input) {
      assert Held(k, states[0].tasks[0]);
    }
    RunCarries(s, k, states, moves, Solo(0));
    var m := states[|moves|];
    var tree := StateAt(s, l, states, moves, |moves|);
    TickCarries(s, k, m, tree, layout);
    FinishedIsRoot(s, m, layout);
  }

  lemma FinishedIsRoot(s: Setting, m: Machine, layout: seq<FrameKind>)
    requires |m.tasks| > 0
    ensures var turn := Iterate(s, m, layout);
      turn.out.Some? && turn.out.value.Finished? ==>
        |turn.m.tasks| > 0 && Terminal(turn.m.tasks[0].state) && turn.out.value.result == turn.m.tasks[0].state.outcome
  {
    if Acting(s, m).None? {
      var x := IdleIs(s, m, layout);
      hide Iterate, Acting, TerminalFault, Cancel;
    } else {
      ActingMoves(s, m, layout);
      TransitionAsks(s, Acting(s, m).value.0, Acting(s, m).value.1);
      hide Iterate, Transition;
    }
  }

  /** A transition reports nothing but a host call. */
  lemma TransitionAsks(s: Setting, m: Machine, i: nat)
    requires i < |m.tasks|
    ensures var out := Transition(s, m, i).out; out.Some? ==> out.value.Requested?
  {
    hide Unwind, Begin, Conclude, Occupied, FaultResult, SpawnTasks, Raced;
  }

  // ----- label sets -----

  type Label(==, !new)

  /** A host that attaches label sets to values and errors. */
  datatype Labels = Labels(value: V -> set<Label>, error: E -> set<Label>)

  function LabelsOf(b: Labels, r: Res): set<Label> {
    match r
    case Ok(v) => b.value(v)
    case Err(e) => b.error(e)
  }

  /** `influence` unions labels and errors keep theirs. */
  ghost predicate Unions(h: Values, b: Labels) {
    && (forall v, c :: b.value(v) + b.value(c) <= b.value(h.influence(v, c)))
    && (forall r: Res, c :: LabelsOf(b, r) + b.value(c) <= LabelsOf(b, h.influenceResult(r, c)))
    && (forall v :: b.value(v) <= b.value(h.retainControl(v)))
    && (forall r: Res :: LabelsOf(b, r) <= b.value(h.retainResult(r)))
    && (forall e :: b.error(e) <= b.value(h.errorValue(e)))
  }

  function LabelMark(b: Labels, x: Label): Mark { Mark(v => x in b.value(v), e => x in b.error(e)) }

  /** The labels a response brings to the task it answers: those of a completed request, or of the
      input of the instructions to go on with, where the task waits at a request. */
  function Brought(s: Setting, b: Labels, m: Machine, move: Move): set<Label>
    requires |m.tasks| > 0
  {
    if !move.Respond? || !Pending(m, move.task, move.ticket) then {}
    else
      match move.event
      case Complete(r) => LabelsOf(b, r)
      case Continue(_, input) =>
        var node := m.tasks[move.task].state.node;
        if s.image.Has(node) && s.image.nodes[node].kind.Request? then b.value(input) else {}
      case Enter(_) => {}
  }

  /** With label sets: the reported result carries every label of the initial input and
      every label that any response brought. */
  lemma ResultCarriesAllLabels(
    s: Setting, b: Labels, l: Launch, states: seq<Machine>, moves: seq<Move>, layout: seq<FrameKind>, result: Res)
    requires Launched(s, l, states, moves) && Unions(s.h, b) && IsLayout(states[|moves|], layout)
    requires Iterate(s, states[|moves|], layout).out == Some(Finished(result))
    ensures b.value(l.input) <= LabelsOf(b, result)
    ensures forall j :: 0 <= j < |moves| ==> Brought(s, b, states[j], moves[j]) <= LabelsOf(b, result)
  {
    forall x | x in b.value(l.input) ensures x in LabelsOf(b, result) {
      LabelTracked(s.h, b, x);
      ResultKeepsLabel(s, LabelMark(b, x), l, states, moves, layout);
    }
    forall j, x | 0 <= j < |moves| && x in Brought(s, b, states[j], moves[j]) ensures x in LabelsOf(b, result) {
      LabelTracked(s.h, b, x);
      assert Receives(s, LabelMark(b, x), states[j], moves[j]);
      ResultKeepsLabel(s, LabelMark(b, x), l, states, moves, layout);
    }
  }

  lemma LabelTracked(h: Values, b: Labels, x: Label)
    requires Unions(h, b)
    ensures Tracks(h, LabelMark(b, x))
  {
    var k := LabelMark(b, x);
    forall r: Res ensures Marked(k, r) <==> x in LabelsOf(b, r) {
    }
  }
}
