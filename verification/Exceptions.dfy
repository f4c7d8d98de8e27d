/** Runs that show why two properties hold only under their conditions: a race that returns the
    branch that finished last, and a cancelled run that ends in success. */
module Exceptions {
  import opened Program
  import opened Machine
  import opened Runs
  import R = Race

  // ----- a race won by the branch that finished last -----

  /** A host that records no provenance. */
  function Plainly(h: Values, v: V): Values {
    h.(influence := (a, b) => a, influenceResult := (r, c) => r, retainResult := r => v, retainControl := x => x)
  }

  const ROOM: Limits := Limits(0, 0, None, 8)

  /** Instruction 0 races instruction 1, which returns its input, against instruction 2, which fails. */
  function RaceImage(e: E): Image {
    Image(IMAGE_VERSION, 0, [Node(Fork(1, 2, Race), None, 0), Node(Input, None, 0), Node(Fail(e), None, 0)], 0, 0, 0)
  }

  const PAIR: JoinState := JoinState(1, 2, Race, 0)

  function At(state: State, pc: nat, v: V, parent: Option<nat>, cancelled: bool): Task {
    Task(state, pc, Some(v), [], 0, parent, 0, cancelled, [])
  }

  /** The three tasks of the race. */
  function Scene(v: V, root: State, left: State, right: State, steps: nat, cleanup: nat, cursor: nat,
      cancelled: bool): Machine {
    Machine([At(root, 0, v, None, cancelled), At(left, 1, v, Some(0), cancelled), At(right, 2, v, Some(0), cancelled)],
            0, ROOM, steps, cleanup, 0, cursor, cancelled, 0)
  }

  lemma SceneLayout(m: Machine)
    requires |m.tasks| == 3 && m.tasks[0].stack == m.tasks[1].stack == m.tasks[2].stack == []
    ensures IsLayout(m, [])
  {
    assert m.tasks[..3] == m.tasks && m.tasks[..3][..2] == m.tasks[..2] && m.tasks[..2][..1] == m.tasks[..1]
      && m.tasks[..1][..0] == [];
    assert AllFrames(m.tasks[..1]) == multiset{} && AllFrames(m.tasks[..2]) == multiset{};
  }

  /** Task `i` is the first from the cursor on that can run. */
  predicate Next(m: Machine, i: nat) {
    && |m.tasks| == 3 && i < 3 && Look(m.tasks, i) != Skip
    && (m.cursor == i || (m.cursor == 0 && i == 1 && Look(m.tasks, 0) == Skip))
  }

  lemma PickCursor(m: Machine, i: nat)
    requires Next(m, i)
    ensures Scan(m.tasks, m.cursor, 0) == Some(i)
  {
  }

  /** A pass of a machine that is neither finished nor short of steps is a transition. */
  lemma Passes(s: Setting, m: Machine, i: nat, t: Task)
    requires Next(m, i) && !m.tasks[i].state.Waiting?
    requires !Terminal(m.tasks[0].state) && m.limits == ROOM && m.cleanupSteps < 8 && t == Convert(s.h, m.tasks[i])
    ensures Iterate(s, m, []) == Transition(s, Spend(SetTask(m, i, t), i), i)
  {
    PickCursor(m, i);
    hide Scan, Transition;
  }

  lemma Forks(s: Setting, e: E, h: Values, v: V, m: Machine)
    requires s == Setting(RaceImage(e), Plainly(h, v)) && m == Initial(s.image, 3, 0, ROOM, v, 0)
    ensures Iterate(s, m, []) == Turn(Scene(v, Joining(PAIR), Ready, Ready, 1, 0, 1, false), None)
  {
    var t, idle := At(Ready, 0, v, None, false), Idle(0);
    assert idle.env == [] && m.tasks[0] == t;
    assert m.tasks == [t, idle, idle];
    Passes(s, m, 0, t);
    var n := Spend(SetTask(m, 0, t), 0);
    assert n == m.(steps := 1, cursor := 1);
    assert Armed(s, t) == t;
    assert Begin(s, t, 0, Room(n), 0) == Spawn(t, 1, 2, Race, v);
    assert FirstFree(n.tasks, 0) == Some(1);
    assert FirstFree(n.tasks, 2) == Some(2);
    assert Forked(n, 0, t, 1, 2, 1, 2, Race, v).tasks == Scene(v, Joining(PAIR), Ready, Ready, 1, 0, 1, false).tasks;
    hide Begin, FirstFree, Room;
  }

  lemma LeftReturns(s: Setting, e: E, h: Values, v: V)
    requires s == Setting(RaceImage(e), Plainly(h, v))
    ensures Iterate(s, Scene(v, Joining(PAIR), Ready, Ready, 1, 0, 1, false), [])
         == Turn(Scene(v, Joining(PAIR), Returning(Ok(v)), Ready, 2, 0, 2, false), None)
  {
    var m, t := Scene(v, Joining(PAIR), Ready, Ready, 1, 0, 1, false), At(Ready, 1, v, Some(0), false);
    Passes(s, m, 1, t);
    var n := Spend(SetTask(m, 1, t), 1);
    assert Begin(s, t, 0, Room(n), 0) == Local.Next(Return(t, Ok(v)));
    hide Begin, Room;
    assert SetTask(n, 1, Return(t, Ok(v))).tasks ==
      Scene(v, Joining(PAIR), Returning(Ok(v)), Ready, 2, 0, 2, false).tasks;
  }

  lemma RightFails(s: Setting, e: E, h: Values, v: V)
    requires s == Setting(RaceImage(e), Plainly(h, v))
    ensures Iterate(s, Scene(v, Joining(PAIR), Returning(Ok(v)), Ready, 2, 0, 2, false), [])
         == Turn(Scene(v, Joining(PAIR), Returning(Ok(v)), Returning(Err(e)), 3, 0, 0, false), None)
  {
    var m, t := Scene(v, Joining(PAIR), Returning(Ok(v)), Ready, 2, 0, 2, false), At(Ready, 2, v, Some(0), false);
    Passes(s, m, 2, t);
    var n := Spend(SetTask(m, 2, t), 2);
    assert Begin(s, t, 0, Room(n), 0) == Local.Next(Return(t, Err(e)));
    hide Begin, Room;
    assert SetTask(n, 2, Return(t, Err(e))).tasks ==
      Scene(v, Joining(PAIR), Returning(Ok(v)), Returning(Err(e)), 3, 0, 0, false).tasks;
  }

  lemma AllMarked(v: V, e: E)
    ensures Cancel(Scene(v, Joining(PAIR), Returning(Ok(v)), Returning(Err(e)), 3, 0, 0, false))
         == Scene(v, Joining(PAIR), Returning(Ok(v)), Returning(Err(e)), 3, 0, 0, true)
  {
    var m := Scene(v, Joining(PAIR), Returning(Ok(v)), Returning(Err(e)), 3, 0, 0, false);
    assert MarkLive(m.tasks) == Scene(v, Joining(PAIR), Returning(Ok(v)), Returning(Err(e)), 3, 0, 0, true).tasks;
  }

  lemma LeftEnds(s: Setting, e: E, h: Values, v: V)
    requires s == Setting(RaceImage(e), Plainly(h, v))
    ensures Iterate(s, Scene(v, Joining(PAIR), Returning(Ok(v)), Returning(Err(e)), 3, 0, 0, true), [])
         == Turn(Scene(v, Joining(PAIR), Done(Err(h.error(Cancelled))), Returning(Err(e)), 3, 1, 2, true), None)
  {
    var m := Scene(v, Joining(PAIR), Returning(Ok(v)), Returning(Err(e)), 3, 0, 0, true);
    var t, u := At(Returning(Err(h.error(Cancelled))), 1, v, Some(0), true),
      At(Done(Err(h.error(Cancelled))), 1, v, Some(0), true);
    assert Convert(s.h, m.tasks[1]) == t;
    Passes(s, m, 1, t);
    var n := Spend(SetTask(m, 1, t), 1);
    assert Unwind(s, t, 0, Room(n)) == Local.Next(u);
    hide Unwind, Room;
    assert SetTask(n, 1, u).tasks == Scene(v, Joining(PAIR), u.state, Returning(Err(e)), 3, 1, 2, true).tasks;
  }

  lemma RightEnds(s: Setting, e: E, h: Values, v: V)
    requires s == Setting(RaceImage(e), Plainly(h, v))
    ensures var left := Done(Err(h.error(Cancelled)));
      Iterate(s, Scene(v, Joining(PAIR), left, Returning(Err(e)), 3, 1, 2, true), [])
      == Turn(Scene(v, Joining(PAIR), left, Done(Err(e)), 3, 2, 0, true), None)
  {
    var left := Done(Err(h.error(Cancelled)));
    var m := Scene(v, Joining(PAIR), left, Returning(Err(e)), 3, 1, 2, true);
    var t, u := At(Returning(Err(e)), 2, v, Some(0), true), At(Done(Err(e)), 2, v, Some(0), true);
    Passes(s, m, 2, t);
    var n := Spend(SetTask(m, 2, t), 2);
    assert Unwind(s, t, 0, Room(n)) == Local.Next(u);
    hide Unwind, Room;
    assert SetTask(n, 2, u).tasks == Scene(v, Joining(PAIR), left, u.state, 3, 2, 0, true).tasks;
  }

  lemma RootTakesRight(s: Setting, e: E, h: Values, v: V)
    requires s == Setting(RaceImage(e), Plainly(h, v))
    ensures var before := Scene(v, Joining(PAIR), Done(Err(h.error(Cancelled))), Done(Err(e)), 3, 2, 0, true);
      var m := Iterate(s, before, []).m;
      |m.tasks| == 3 && m.tasks[0].state == Returning(Err(e))
  {
    var m, t := Scene(v, Joining(PAIR), Done(Err(h.error(Cancelled))), Done(Err(e)), 3, 2, 0, true),
      At(Joining(PAIR), 0, v, None, true);
    Passes(s, m, 0, t);
    var n := Spend(SetTask(m, 0, t), 0);
    assert n.tasks == m.tasks;
    assert Raced(m.tasks, PAIR)[0] == t && Raced(m.tasks, PAIR)[1] == m.tasks[1]
      && Raced(m.tasks, PAIR)[2] == m.tasks[2];
    assert Merged(s.h, n.tasks, PAIR) == Err(e);
    assert Conclude(s, t, 0, Err(e)) == Local.Next(Return(t, Err(e)));
    hide Raced, Merged, Conclude;
  }

  /** One call leads from one machine to the other. */
  ghost predicate Leads(s: Setting, m: Machine, move: Move, n: Machine) {
    |m.tasks| > 0 && Legal(m, move) && n == Apply(s, m, move).m
  }

  lemma TickLeads(s: Setting, m: Machine, n: Machine)
    requires |m.tasks| == 3 && m.tasks[0].stack == m.tasks[1].stack == m.tasks[2].stack == []
      && Iterate(s, m, []).m == n
    ensures Leads(s, m, Tick([]), n)
  {
    SceneLayout(m);
  }

  /** The machine after each call. */
  function Story(s: Setting, l: Launch, h: Values, v: V, e: E): seq<Machine>
    requires Admits(s, l)
  {
    var c := Done(Err(h.error(Cancelled)));
    var m := Scene(v, Joining(PAIR), c, Done(Err(e)), 3, 2, 0, true);
    [First(s, l),
     Scene(v, Joining(PAIR), Ready, Ready, 1, 0, 1, false),
     Scene(v, Joining(PAIR), Returning(Ok(v)), Ready, 2, 0, 2, false),
     Scene(v, Joining(PAIR), Returning(Ok(v)), Returning(Err(e)), 3, 0, 0, false),
     Scene(v, Joining(PAIR), Returning(Ok(v)), Returning(Err(e)), 3, 0, 0, true),
     Scene(v, Joining(PAIR), c, Returning(Err(e)), 3, 1, 2, true),
     m,
     Iterate(s, m, []).m]
  }

  const CALLS: seq<Move> := [Tick([]), Tick([]), Tick([]), Abort, Tick([]), Tick([]), Tick([])]

  lemma StoryLeads(s: Setting, l: Launch, h: Values, v: V, e: E)
    requires s == Setting(RaceImage(e), Plainly(h, v)) && l == Launch(3, 0, ROOM, v, 0) && Admits(s, l)
    ensures var states := Story(s, l, h, v, e);
      && Leads(s, states[0], CALLS[0], states[1]) && Leads(s, states[1], CALLS[1], states[2])
      && Leads(s, states[2], CALLS[2], states[3]) && Leads(s, states[3], CALLS[3], states[4])
      && Leads(s, states[4], CALLS[4], states[5]) && Leads(s, states[5], CALLS[5], states[6])
      && Leads(s, states[6], CALLS[6], states[7])
  {
    hide Iterate, Cancel, IsLayout, Leads;
    var states := Story(s, l, h, v, e);
    Forks(s, e, h, v, states[0]);
    LeftReturns(s, e, h, v);
    RightFails(s, e, h, v);
    LeftEnds(s, e, h, v);
    RightEnds(s, e, h, v);
    TickLeads(s, states[0], states[1]);
    TickLeads(s, states[1], states[2]);
    TickLeads(s, states[2], states[3]);
    assert Leads(s, states[3], Abort, states[4]) by {
      AllMarked(v, e);
      AbortLeads(s, states[3]);
    }
    TickLeads(s, states[4], states[5]);
    TickLeads(s, states[5], states[6]);
    TickLeads(s, states[6], states[7]);
  }

  lemma AbortLeads(s: Setting, m: Machine)
    requires |m.tasks| > 0
    ensures Leads(s, m, Abort, Cancel(m))
  {
  }

  lemma SevenCalls(s: Setting, states: seq<Machine>, moves: seq<Move>)
    requires |states| == 8 && |moves| == 7 && |states[7].tasks| > 0
    requires Leads(s, states[0], moves[0], states[1]) && Leads(s, states[1], moves[1], states[2])
    requires Leads(s, states[2], moves[2], states[3]) && Leads(s, states[3], moves[3], states[4])
    requires Leads(s, states[4], moves[4], states[5]) && Leads(s, states[5], moves[5], states[6])
    requires Leads(s, states[6], moves[6], states[7])
    ensures IsRun(s, states, moves)
  {
    hide Apply, Legal;
  }

  lemma StoryRuns(s: Setting, l: Launch, h: Values, v: V, e: E)
    requires s == Setting(RaceImage(e), Plainly(h, v)) && l == Launch(3, 0, ROOM, v, 0) && Admits(s, l)
    ensures Launched(s, l, Story(s, l, h, v, e), CALLS)
  {
    hide Leads, IsRun, Iterate, Admits, First, Scene;
    StoryLeads(s, l, h, v, e);
    RootTakesRight(s, e, h, v);
    SevenCalls(s, Story(s, l, h, v, e), CALLS);
  }

  lemma StoryAdmitted(h: Values, v: V, e: E)
    ensures Admits(Setting(RaceImage(e), Plainly(h, v)), Launch(3, 0, ROOM, v, 0))
  {
  }

  lemma StoryTells(s: Setting, l: Launch, h: Values, v: V, e: E)
    requires s == Setting(RaceImage(e), Plainly(h, v)) && Admits(s, l)
    ensures var states := Story(s, l, h, v, e);
      && |states| == 8 && R.Waits(states, 0, PAIR, 1, 6) && R.NoneDone(states[1], PAIR)
      && DoneAt(states[5].tasks, PAIR.left) && !DoneAt(states[5].tasks, PAIR.right)
      && states[5].tasks[PAIR.left].state.outcome == Err(h.error(Cancelled))
      && |states[7].tasks| == 3 && states[7].tasks[0].state == Returning(Err(e))
  {
    RootTakesRight(s, e, h, v);
    hide Iterate, Admits, First, Plainly, RaceImage;
  }

  /** The left branch is done first, and the race returns the result of the right one: the host
      cancelled the run while both branches were on their way back, so the left branch dropped its
      result for `Cancelled`, while the right one kept the error it already carried, which may be
      any error. */
  lemma LastBranchWins(h: Values, v: V, e: E)
    returns (s: Setting, l: Launch, states: seq<Machine>, moves: seq<Move>)
    ensures Launched(s, l, states, moves) && |moves| == 7 && R.Waits(states, 0, PAIR, 1, 6)
      && R.NoneDone(states[1], PAIR)
    ensures DoneAt(states[5].tasks, PAIR.left) && !DoneAt(states[5].tasks, PAIR.right)
    ensures states[5].tasks[PAIR.left].state.outcome == Err(h.error(Cancelled))
    ensures states[7].tasks[0].state == Returning(Err(e))
  {
    hide Launched, Story, Admits, R.Waits, Plainly, RaceImage;
    s, l, moves := Setting(RaceImage(e), Plainly(h, v)), Launch(3, 0, ROOM, v, 0), CALLS;
    StoryAdmitted(h, v, e);
    states := Story(s, l, h, v, e);
    StoryRuns(s, l, h, v, e);
    StoryTells(s, l, h, v, e);
  }

  // ----- a cancelled run that succeeds -----

  /** A host that turns every result into a success. */
  function Forgiving(h: Values, v: V): Values { h.(influenceResult := (r, c) => Ok(v)) }

  const ECHO: Image := Image(IMAGE_VERSION, 0, [Node(Input, None, 0)], 0, 0, 0)

  function Lone(state: State, v: V, cleanup: nat, cancelled: bool): Machine {
    Machine([At(state, 0, v, None, cancelled)], 0, ROOM, 0, cleanup, 0, 0, cancelled, 0)
  }

  lemma LoneFirst(s: Setting, v: V)
    requires s.image == ECHO
    ensures var l := Launch(1, 0, ROOM, v, 0); Admits(s, l) && First(s, l) == Lone(Ready, v, 0, false)
  {
    var m := Initial(ECHO, 1, 0, ROOM, v, 0);
    assert Idle(0).env == [] && m.tasks == [At(Ready, 0, v, None, false)];
  }

  lemma LoneCancelled(s: Setting, v: V)
    ensures Leads(s, Lone(Ready, v, 0, false), Abort, Lone(Ready, v, 0, true))
  {
    assert MarkLive(Lone(Ready, v, 0, false).tasks) == Lone(Ready, v, 0, true).tasks;
  }

  /** What `Cancelled` becomes when it passes through the host twice under the control of `v`. */
  function Aftermath(h: Values, v: V): Res { h.influenceResult(h.influenceResult(Err(h.error(Cancelled)), v), v) }

  lemma LoneEnds(s: Setting, v: V)
    requires s.image == ECHO
    ensures IsLayout(Lone(Ready, v, 0, true), [])
    ensures var n := Iterate(s, Lone(Ready, v, 0, true), []).m;
      |n.tasks| == 1 && n.tasks[0].state == Done(Aftermath(s.h, v))
  {
    var m := Lone(Ready, v, 0, true);
    assert m.tasks[..0] == [] && AllFrames(m.tasks) == AllFrames(m.tasks[..0]) + multiset(m.tasks[0].stack);
    assert Scan(m.tasks, 0, 0) == Some(0);
    var t := At(Returning(s.h.influenceResult(Err(s.h.error(Cancelled)), v)), 0, v, None, true);
    assert Convert(s.h, m.tasks[0]) == t;
    hide Scan, Convert;
    var u := Unwind(s, t, 0, Room(Spend(SetTask(m, 0, t), 0)));
    assert u.Next? && u.task.state == Done(Aftermath(s.h, v));
  }

  /** For every host and every input: the one-instruction program that is cancelled at once ends
      with what the host makes of `Cancelled`, so it succeeds exactly when the host forgives it. */
  lemma CancelledEchoEnds(h: Values, v: V)
    returns (s: Setting, l: Launch, states: seq<Machine>, moves: seq<Move>)
    ensures s == Setting(ECHO, h) && l.input == v && Launched(s, l, states, moves) && |moves| == 2
    ensures moves[0].Abort? && !Terminal(states[0].tasks[0].state) && states[2].tasks[0].state == Done(Aftermath(h, v))
  {
    s, l := Setting(ECHO, h), Launch(1, 0, ROOM, v, 0);
    hide Iterate, IsLayout, Cancel, Admits, First, Aftermath;
    LoneFirst(s, v);
    LoneCancelled(s, v);
    LoneEnds(s, v);
    var m := Lone(Ready, v, 0, true);
    states, moves := [First(s, l), m, Iterate(s, m, []).m], [Abort, Tick([])];
  }

  /** A host that does not keep errors, and a run that is cancelled at once and succeeds. */
  lemma CancelledMaySucceed(h: Values, v: V)
    returns (s: Setting, l: Launch, states: seq<Machine>, moves: seq<Move>)
    ensures !KeepsErrors(s.h) && Launched(s, l, states, moves) && |moves| == 2
    ensures moves[0].Abort? && !Terminal(states[0].tasks[0].state) && states[2].tasks[0].state == Done(Ok(v))
  {
    var host := Forgiving(h, v);
    var bad: Res := Err(h.error(Cancelled));
    assert host.influenceResult(bad, v).Ok?;
    hide Launched;
    s, l, states, moves := CancelledEchoEnds(host, v);
  }
}
