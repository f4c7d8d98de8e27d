/** A program that the machine finishes has a meaning: the evaluator is defined wherever a lone
    task gets done. */
module Completeness {
  import opened Program
  import opened Machine
  import opened Stacks
  import opened Runs
  import E = Evaluator
  import R = Refinement
  import opened Realization
  import opened Forest
  import Scheduling
  import G = Growth

  // ----- how much a program can use -----

  predicate Suffix(a: seq<HostEvent>, b: seq<HostEvent>) { |a| <= |b| && a == b[|b| - |a|..] }

  lemma SuffixTrans(a: seq<HostEvent>, b: seq<HostEvent>, c: seq<HostEvent>)
    requires Suffix(a, b) && Suffix(b, c)
    ensures Suffix(a, c)
  {
    assert c[|c| - |b|..][|b| - |a|..] == c[|c| - |a|..];
  }

  /** A program run with some fuel holds two continuations for each unit, and uses up a reply for
      every host call it makes. */
  predicate Frugal(o: E.Out, replies: seq<HostEvent>, fuel: nat) {
    o.peak <= 2 * fuel && |o.asked| + |o.rest| <= |replies| && Suffix(o.rest, replies)
  }

  lemma FrugalThen(a: E.Out, b: E.Out, replies: seq<HostEvent>, fuel: nat, more: nat)
    requires Frugal(a, replies, fuel) && Frugal(b, a.rest, more) && more <= fuel
    ensures Frugal(E.After(a, b), replies, fuel)
  {
    SuffixTrans(b.rest, a.rest, replies);
  }

  lemma TailFrugal(s: Setting, w: E.World, n: nat, o: E.Out, fuel: nat)
    requires s.image.Has(n) && fuel > 0 && E.Tail(s, w, n, o, fuel).Some?
    ensures Frugal(E.Tail(s, w, n, o, fuel).value, o.rest, fuel - 1)
    decreases fuel, 0
  {
    var r := s.h.influenceResult(o.result, o.control);
    if r.Ok? && s.image.nodes[n].next.Some? {
      EvalFrugal(s, w, s.image.nodes[n].next.value, r.value, o.rest, fuel - 1);
    } else {
      hide E.Eval;
    }
  }

  lemma EndedFrugal(s: Setting, w: E.World, n: nat, o: E.Out, replies: seq<HostEvent>, fuel: nat)
    requires s.image.Has(n) && fuel > 0 && E.Ended(s, w, n, o, fuel).Some? && Frugal(o, replies, fuel)
    ensures Frugal(E.Ended(s, w, n, o, fuel).value, replies, fuel)
    decreases fuel, 1
  {
    hide E.Tail;
    TailFrugal(s, w, n, o, fuel);
    FrugalThen(o, E.Tail(s, w, n, o, fuel).value, replies, fuel, fuel - 1);
  }

  lemma EvalFrugal(s: Setting, w: E.World, n: nat, v: V, replies: seq<HostEvent>, fuel: nat)
    requires E.Eval(s, w, n, v, replies, fuel).Some?
    ensures Frugal(E.Eval(s, w, n, v, replies, fuel).value, replies, fuel)
    decreases fuel, 4
  {
    var kind := s.image.nodes[n].kind;
    var opening := OpeningOf(kind, v);
    if opening.Some? {
      OpeningFrugal(s, w, n, v, replies, fuel);
    } else {
      LeafFrugal(s, w, n, v, replies, fuel);
    }
  }

  lemma OpeningFrugal(s: Setting, w: E.World, n: nat, v: V, replies: seq<HostEvent>, fuel: nat)
    requires s.image.Has(n) && OpeningOf(s.image.nodes[n].kind, v).Some? && E.Eval(s, w, n, v, replies, fuel).Some?
    ensures Frugal(E.Eval(s, w, n, v, replies, fuel).value, replies, fuel)
    decreases fuel, 3
  {
    hide E.Eval, E.Resume, E.Tail, OpeningOf;
    var o := OpeningOf(s.image.nodes[n].kind, v).value;
    var first, second, tail := R.OpeningParts(s, w, n, v, replies, fuel);
    EvalFrugal(s, w, o.entry, v, replies, fuel - 1);
    ResumeFrugal(s, w, o.frame, first, fuel - 1);
    var both := E.After(E.Deeper(first, 2), E.Deeper(second, 1));
    SuffixTrans(second.rest, first.rest, replies);
    TailFrugal(s, w, n, E.Carry(s.h, second), fuel);
    FrugalThen(E.Carry(s.h, both), tail, replies, fuel, fuel - 1);
  }

  lemma LeafFrugal(s: Setting, w: E.World, n: nat, v: V, replies: seq<HostEvent>, fuel: nat)
    requires s.image.Has(n) && OpeningOf(s.image.nodes[n].kind, v).None? && E.Eval(s, w, n, v, replies, fuel).Some?
    ensures Frugal(E.Eval(s, w, n, v, replies, fuel).value, replies, fuel)
    decreases fuel, 3
  {
    var kind := s.image.nodes[n].kind;
    var control := s.h.retainControl(v);
    assert E.Eval(s, w, n, v, replies, fuel) == E.EvalLeaf(s, w, n, kind, v, replies, fuel);
    hide E.Eval, E.Ended;
    match kind
    case Literal(c) => EndedFrugal(s, w, n, E.Plain(Ok(s.h.influence(c, v)), control, replies), replies, fuel);
    case Input => EndedFrugal(s, w, n, E.Plain(Ok(v), control, replies), replies, fuel);
    case Fail(e) => EndedFrugal(s, w, n, E.Plain(Err(e), control, replies), replies, fuel);
    case Load(slot) =>
      if slot < |w.env| && w.env[slot].Some? {
        EndedFrugal(s, w, n, E.Plain(Ok(s.h.influence(w.env[slot].value, v)), control, replies), replies, fuel);
      }
    case If(yes, no) =>
      match s.h.truth(v) {
        case Ok(b) => CalledFrugal(s, w, n, if b then yes else no, v, replies, fuel);
        case Err(e) => EndedFrugal(s, w, n, E.Plain(Err(e), control, replies), replies, fuel);
      }
    case Call(entry) => CalledFrugal(s, w, n, entry, v, replies, fuel);
    case Request(port) => AskedFrugal(s, w, n, port, None, v, replies, fuel);
    case Scope(port, body) => AskedFrugal(s, w, n, port, Some(body), v, replies, fuel);
  }

  lemma CalledFrugal(s: Setting, w: E.World, n: nat, entry: nat, v: V, replies: seq<HostEvent>, fuel: nat)
    requires s.image.Has(n) && fuel > 0 && E.Called(s, w, n, entry, v, replies, fuel).Some?
    ensures Frugal(E.Called(s, w, n, entry, v, replies, fuel).value, replies, fuel)
    decreases fuel, 2
  {
    hide E.Eval, E.Ended;
    EvalFrugal(s, w, entry, v, replies, fuel - 1);
    var inner := E.Eval(s, w, entry, v, replies, fuel - 1).value;
    EndedFrugal(s, w, n, E.Carry(s.h, E.Deeper(inner, 1)), replies, fuel);
  }

  lemma {:induction false} AcceptingSuffix(scope: bool, replies: seq<HostEvent>)
    ensures var t := E.Accepting(scope, replies); t.Some? ==> Suffix(t.value, replies)
  {
    if replies != [] && replies[0].Enter? && !scope {
      AcceptingSuffix(scope, replies[1..]);
      if E.Accepting(scope, replies).Some? {
        SuffixTrans(E.Accepting(scope, replies).value, replies[1..], replies);
      }
    }
  }

  lemma AskedFrugal(
    s: Setting, w: E.World, n: nat, port: nat, body: Option<nat>, v: V, replies: seq<HostEvent>, fuel: nat)
    requires s.image.Has(n) && fuel > 0 && E.Asked(s, w, n, port, body, v, replies, fuel).Some?
    ensures Frugal(E.Asked(s, w, n, port, body, v, replies, fuel).value, replies, fuel)
    decreases fuel, 2
  {
    hide E.Eval, E.Ended, E.Accepting;
    AcceptingSuffix(body.Some?, replies);
    var taken := E.Accepting(body.Some?, replies).value;
    var rest := taken[1..];
    SuffixTrans(rest, taken, replies);
    var question := E.Out(Ok(v), v, [E.Question(port, v, w.context, s.image.nodes[n].position, w.cleanup)], rest, 0);
    match taken[0]
    case Complete(r) =>
      EndedFrugal(s, w, n, question.(result := r, control := s.h.influence(v, s.h.retainResult(r))), replies, fuel);
    case Enter(context) =>
      EvalFrugal(s, w.(context := context), body.value, v, rest, fuel - 1);
      var inner := E.Eval(s, w.(context := context), body.value, v, rest, fuel - 1).value;
      SuffixTrans(inner.rest, rest, replies);
      EndedFrugal(s, w, n, E.Carry(s.h, E.Carry(s.h, E.After(question, E.Deeper(inner, 2)))), replies, fuel);
  }

  lemma ResumeFrugal(s: Setting, w: E.World, frame: FrameKind, o: E.Out, fuel: nat)
    requires E.Resume(s, w, frame, o, fuel).Some?
    ensures Frugal(E.Resume(s, w, frame, o, fuel).value, o.rest, fuel)
    decreases fuel, 2
  {
    hide E.Eval;
    var c := E.Carry(s.h, E.Plain(o.result, o.control, o.rest));
    match frame
    case ThenFrame(after) =>
      if c.result.Ok? {
        EvalFrugal(s, w, after, c.result.value, c.rest, fuel - 1);
      }
    case CatchFrame(recover) =>
      if c.result.Err? {
        EvalFrugal(s, w, recover, s.h.influence(s.h.errorValue(c.result.error), c.control), c.rest, fuel - 1);
      }
    case FinallyFrame(cleanup, input) => EvalFrugal(s, w.(cleanup := true), cleanup, input, c.rest, fuel - 1);
    case Choose(yes, no, input) =>
      if c.result.Ok? && s.h.truth(c.result.value).Ok? {
        var taken := if s.h.truth(c.result.value).value then yes else no;
        EvalFrugal(s, w, taken, s.h.influence(input, c.result.value), c.rest, fuel - 1);
      }
    case Bind(slot, body) =>
      if c.result.Ok? {
        EvalFrugal(s, w.(env := w.env[slot := Some(c.result.value)]), body, c.result.value, c.rest, fuel - 1);
      }
    case Condition(condition, body, left, value) =>
      if c.result.Ok? && s.h.truth(c.result.value) == Ok(true) && left > 0 {
        LoopFrugal(s, w, Iteration(condition, body, left - 1), body, s.h.influence(value, c.result.value), c.rest,
          fuel - 1);
      }
    case Iteration(condition, body, left) =>
      if c.result.Ok? {
        LoopFrugal(s, w, Condition(condition, body, left, c.result.value), condition, c.result.value, c.rest, fuel - 1);
      }
  }

  lemma LoopFrugal(s: Setting, w: E.World, above: FrameKind, n: nat, v: V, replies: seq<HostEvent>, fuel: nat)
    requires E.Eval(s, w, n, v, replies, fuel).Some?
      && E.Resume(s, w, above, E.Eval(s, w, n, v, replies, fuel).value, fuel).Some?
    ensures var inner := E.Eval(s, w, n, v, replies, fuel).value;
      Frugal(E.After(E.Deeper(inner, 1), E.Resume(s, w, above, inner, fuel).value), replies, fuel + 1)
    decreases fuel, 5
  {
    hide E.Eval, E.Resume;
    var inner := E.Eval(s, w, n, v, replies, fuel).value;
    EvalFrugal(s, w, n, v, replies, fuel);
    ResumeFrugal(s, w, above, inner, fuel);
    FrugalThen(E.Deeper(inner, 1), E.Resume(s, w, above, inner, fuel).value, replies, fuel + 1, fuel);
  }

  // ----- a program without a meaning runs on -----

  /** The task is not done after `k` steps. */
  ghost predicate Late(s: Setting, z: R.Limit, c: R.Solo, k: nat) { !R.Steps(s, z, c, k).task.state.Done? }

  /** Being late at some point means having been late before. */
  lemma LateAfter(s: Setting, z: R.Limit, c: R.Solo, d: R.Solo, a: nat, b: nat, k: nat)
    requires R.Steps(s, z, c, a) == d && Late(s, z, d, b) && k <= a + b
    ensures Late(s, z, c, k)
  {
    hide R.Step, R.Steps;
    R.StepsAdd(s, z, c, a, b);
    R.StepsAdd(s, z, c, k, a + b - k);
    if R.Steps(s, z, c, k).task.state.Done? {
      DoneStays(s, z, R.Steps(s, z, c, k), a + b - k);
    }
  }

  predicate NoAppends(replies: seq<HostEvent>) { forall i :: 0 <= i < |replies| ==> !replies[i].Continue? }

  /** Enough storage and tickets for anything a program can do with that fuel. */
  ghost predicate Ample(s: Setting, z: R.Limit, c: R.Solo, fuel: nat) {
    && ProgramOk(s, |c.task.env|) && R.Roomy(z, c.task, 2 * fuel)
    && c.ticket + |c.replies| < U64_MAX && NoAppends(c.replies)
  }

  /** What is ample before a part is ample after it. */
  lemma AmpleAfter(s: Setting, z: R.Limit, c: R.Solo, o: E.Out, d: R.Solo, fuel: nat, more: nat)
    requires Ample(s, z, c, fuel) && Frugal(o, c.replies, more)
    requires d.ticket <= c.ticket + |o.asked| && d.replies == o.rest && |d.task.env| == |c.task.env|
    requires |d.task.stack| + 2 * more <= |c.task.stack| + 2 * fuel
    ensures Ample(s, z, d, more)
  {
    hide ProgramOk;
    forall i | 0 <= i < |d.replies| ensures !d.replies[i].Continue? {
      assert d.replies[i] == c.replies[|c.replies| - |o.rest| + i];
    }
  }

  /** A frame that a guarded instruction or a loop leaves on the stack. */
  predicate Structured(frame: FrameKind) {
    || frame.ThenFrame? || frame.CatchFrame? || frame.FinallyFrame? || frame.Choose? || frame.Bind?
    || frame.Condition? || frame.Iteration?
  }

  lemma OpeningStructured(kind: NodeKind, v: V)
    ensures OpeningOf(kind, v).Some? ==> Structured(OpeningOf(kind, v).value.frame)
  {
  }

  lemma TailLate(s: Setting, z: R.Limit, c: R.Solo, w: E.World, n: nat, o: E.Out, fuel: nat)
    requires s.image.Has(n) && fuel > 0 && E.Tail(s, w, n, o, fuel).None?
    requires c.task.input == Some(o.control) && R.Within(c.task, w) && c.replies == o.rest && Ample(s, z, c, fuel)
    ensures Late(s, z, c.(task := Conclude(s, c.task, n, o.result).task), fuel - 1)
    decreases fuel, 0
  {
    TargetsIn(s, |c.task.env|, n);
    var r := s.h.influenceResult(o.result, o.control);
    var d := c.(task := Conclude(s, c.task, n, o.result).task);
    EvalLate(s, z, d, w, s.image.nodes[n].next.value, r.value, fuel - 1);
  }

  lemma FinishLate(s: Setting, z: R.Limit, c: R.Solo, w: E.World, n: nat, o: E.Out, fuel: nat)
    requires R.Facing(c, o, Finish(n)) && s.image.Has(n) && fuel > 0
    requires R.Within(R.Below(c.task), w) && E.Tail(s, w, n, E.Carry(s.h, o), fuel).None?
      && Ample(s, z, R.Popped(c), fuel)
    ensures Late(s, z, c, fuel)
    decreases fuel, 1
  {
    hide E.Tail, R.Step, R.Steps, Unwind, ProgramOk;
    R.PopStep(s, z, c, o, Finish(n));
    R.OneStep(s, z, c);
    var d := c.(task := R.Handling(s, c, o));
    TailLate(s, z, d, w, n, E.Carry(s.h, o), fuel);
    LateAfter(s, z, c, R.Step(s, z, c), 1, fuel - 1, fuel);
  }

  lemma EvalLate(s: Setting, z: R.Limit, c: R.Solo, w: E.World, n: nat, v: V, fuel: nat)
    requires R.Stands(c.task, w, n, v) && s.image.Has(n) && E.Eval(s, w, n, v, c.replies, fuel).None?
      && Ample(s, z, c, fuel)
    ensures Late(s, z, c, fuel)
    decreases fuel, 5
  {
    if fuel > 0 {
      if OpeningOf(s.image.nodes[n].kind, v).Some? {
        OpeningLate(s, z, c, w, n, v, fuel);
      } else {
        LeafLate(s, z, c, w, n, v, fuel);
      }
    }
  }

  lemma OpeningMissing(s: Setting, w: E.World, n: nat, v: V, replies: seq<HostEvent>, fuel: nat)
    requires s.image.Has(n) && OpeningOf(s.image.nodes[n].kind, v).Some? && E.Eval(s, w, n, v, replies, fuel).None?
      && fuel > 0
    ensures var o := OpeningOf(s.image.nodes[n].kind, v).value;
      var first := E.Eval(s, w, o.entry, v, replies, fuel - 1);
      first.Some? ==>
        var second := E.Resume(s, w, o.frame, first.value, fuel - 1);
        second.Some? ==> E.Tail(s, w, n, E.Carry(s.h, second.value), fuel).None?
  {
    var o := OpeningOf(s.image.nodes[n].kind, v).value;
    var first := E.Eval(s, w, o.entry, v, replies, fuel - 1);
    if first.Some? {
      var second := E.Resume(s, w, o.frame, first.value, fuel - 1);
      if second.Some? {
        var both := E.After(E.Deeper(first.value, 2), E.Deeper(second.value, 1));
        R.TailSame(s, w, n, E.Carry(s.h, both), E.Carry(s.h, second.value), fuel);
      }
    }
  }

  lemma OpeningLate(s: Setting, z: R.Limit, c: R.Solo, w: E.World, n: nat, v: V, fuel: nat)
    requires R.Stands(c.task, w, n, v) && s.image.Has(n) && OpeningOf(s.image.nodes[n].kind, v).Some? && fuel > 0
    requires E.Eval(s, w, n, v, c.replies, fuel).None? && Ample(s, z, c, fuel)
    ensures Late(s, z, c, fuel)
    decreases fuel, 4
  {
    hide E.Eval, E.Resume, E.Tail, R.Step, R.Steps, ProgramOk, OpeningOf, Late, Frugal, NoAppends;
    var o := OpeningOf(s.image.nodes[n].kind, v).value;
    OpeningOk(s, |c.task.env|, n, v);
    OpeningStructured(s.image.nodes[n].kind, v);
    OpeningMissing(s, w, n, v, c.replies, fuel);
    R.OpeningSteps(s, z, c, w, n, v);
    R.OneStep(s, z, c);
    var c1 := R.Step(s, z, c);
    var first := E.Eval(s, w, o.entry, v, c.replies, fuel - 1);
    if first.None? {
      EvalLate(s, z, c1, w, o.entry, v, fuel - 1);
      LateAfter(s, z, c, c1, 1, fuel - 1, fuel);
    } else {
      EvalFrugal(s, w, o.entry, v, c.replies, fuel - 1);
      FrugalFits(s, z, c1, first.value, fuel - 1);
      var k1, pc1 := R.EvalLands(s, z, c1, w, o.entry, v, fuel - 1);
      var c2 := R.Landed(c1, first.value, pc1);
      R.Compose(s, z, c, c1, 1, c2, k1);
      AmpleAfter(s, z, c, first.value, R.Popped(c2), fuel, fuel - 1);
      OpeningLate2(s, z, c, w, n, first.value, o.frame, c2, 1 + k1, fuel);
    }
  }

  /** After the guarded part of an instruction. */
  lemma OpeningLate2(
    s: Setting, z: R.Limit, c: R.Solo, w: E.World, n: nat, first: E.Out, frame: FrameKind, c2: R.Solo, k: nat,
    fuel: nat)
    requires s.image.Has(n) && fuel > 0 && R.Facing(c2, first, frame) && Structured(frame)
      && FrameOk(s.image, |c.task.env|, frame)
    requires R.Within(R.Below(c2.task), w) && R.Below(c2.task).stack == c.task.stack + [Finish(n)]
      && |c2.task.env| == |c.task.env|
    requires R.Steps(s, z, c, k) == c2 && k > 0 && Ample(s, z, R.Popped(c2), fuel - 1) && Ample(s, z, c, fuel)
    requires var second := E.Resume(s, w, frame, first, fuel - 1);
      second.Some? ==> E.Tail(s, w, n, E.Carry(s.h, second.value), fuel).None?
    ensures Late(s, z, c, fuel)
    decreases fuel, 3
  {
    hide E.Eval, E.Resume, E.Tail, R.Step, R.Steps, ProgramOk, Late, Frugal, NoAppends, FrameOk;
    var second := E.Resume(s, w, frame, first, fuel - 1);
    if second.None? {
      ResumeLate(s, z, c2, w, frame, first, fuel - 1);
      LateAfter(s, z, c, c2, k, fuel - 1, fuel);
    } else {
      ResumeFrugal(s, w, frame, first, fuel - 1);
      FrugalFits(s, z, R.Popped(c2), second.value, fuel - 1);
      var k2, pc2 := R.ResumeLands(s, z, c2, w, frame, first, fuel - 1);
      var c3 := R.Landed(R.Popped(c2), second.value, pc2);
      R.Compose(s, z, c, c2, k, c3, k2);
      assert R.Below(c3.task).stack == c.task.stack;
      AmpleAgain(s, z, c, R.Popped(c2), second.value, R.Popped(c3), fuel);
      FinishLate(s, z, c3, w, n, second.value, fuel);
      LateAfter(s, z, c, c3, k + k2, fuel, fuel);
    }
  }

  lemma FrugalFits(s: Setting, z: R.Limit, c: R.Solo, o: E.Out, fuel: nat)
    requires Ample(s, z, c, fuel) && Frugal(o, c.replies, fuel)
    ensures R.Fit(s, z, c, o)
  {
    hide ProgramOk;
  }

  /** Back at the depth of the instruction, the storage is ample for the rest of the fuel. */
  lemma AmpleAgain(s: Setting, z: R.Limit, c: R.Solo, d: R.Solo, o: E.Out, e: R.Solo, fuel: nat)
    requires Ample(s, z, c, fuel) && fuel > 0 && Ample(s, z, d, fuel - 1) && Frugal(o, d.replies, fuel - 1)
    requires e.ticket == d.ticket + |o.asked| && e.replies == o.rest && |e.task.env| == |c.task.env| == |d.task.env|
    requires |e.task.stack| == |c.task.stack|
    ensures Ample(s, z, e, fuel)
  {
    hide ProgramOk;
    forall i | 0 <= i < |e.replies| ensures !e.replies[i].Continue? {
      assert e.replies[i] == d.replies[|d.replies| - |o.rest| + i];
    }
  }

  lemma LeafLate(s: Setting, z: R.Limit, c: R.Solo, w: E.World, n: nat, v: V, fuel: nat)
    requires R.Stands(c.task, w, n, v) && s.image.Has(n) && OpeningOf(s.image.nodes[n].kind, v).None? && fuel > 0
    requires E.Eval(s, w, n, v, c.replies, fuel).None? && Ample(s, z, c, fuel)
    ensures Late(s, z, c, fuel)
    decreases fuel, 4
  {
    var kind := s.image.nodes[n].kind;
    assert E.Eval(s, w, n, v, c.replies, fuel) == E.EvalLeaf(s, w, n, kind, v, c.replies, fuel);
    hide E.Eval, E.Tail, R.Steps, Conclude, Late, Ample;
    AmpleProgram(s, z, c, fuel);
    TargetsIn(s, |c.task.env|, n);
    match kind
    case Literal(x) => ConcludingLate(s, z, c, w, n, v, Ok(s.h.influence(x, v)), fuel);
    case Input => ConcludingLate(s, z, c, w, n, v, Ok(v), fuel);
    case Fail(e) => ConcludingLate(s, z, c, w, n, v, Err(e), fuel);
    case Load(slot) => ConcludingLate(s, z, c, w, n, v, Ok(s.h.influence(w.env[slot].value, v)), fuel);
    case If(yes, no) =>
      if s.h.truth(v).Ok? {
        CalledLate(s, z, c, w, n, if s.h.truth(v).value then yes else no, v, fuel);
      } else {
        ConcludingLate(s, z, c, w, n, v, Err(s.h.truth(v).error), fuel);
      }
    case Call(entry) => CalledLate(s, z, c, w, n, entry, v, fuel);
    case Request(port) => AskedLate(s, z, c, w, n, port, None, v, fuel);
    case Scope(port, body) => AskedLate(s, z, c, w, n, port, Some(body), v, fuel);
    case Fork(_, _, _) => StuckLate(s, z, c, fuel);
  }

  lemma AmpleProgram(s: Setting, z: R.Limit, c: R.Solo, fuel: nat)
    requires Ample(s, z, c, fuel)
    ensures ProgramOk(s, |c.task.env|)
  {
  }

  /** A task that never moves is never done. */
  lemma StuckLate(s: Setting, z: R.Limit, c: R.Solo, k: nat)
    requires R.Step(s, z, c) == c && !c.task.state.Done?
    ensures Late(s, z, c, k)
  {
    StuckStays(s, z, c, k);
  }

  lemma ConcludingLate(s: Setting, z: R.Limit, c: R.Solo, w: E.World, n: nat, v: V, r: Res, fuel: nat)
    requires R.Stands(c.task, w, n, v) && s.image.Has(n) && fuel > 0 && Ample(s, z, c, fuel)
    requires !s.image.nodes[n].kind.Request? && !s.image.nodes[n].kind.Scope?
    requires Begin(s, c.task, z.max, R.Room(z, c.task), c.ticket) == Conclude(s, Armed(s, c.task), n, r)
    requires E.Ended(s, w, n, E.Plain(r, s.h.retainControl(v), c.replies), fuel).None?
    ensures Late(s, z, c, fuel)
    decreases fuel, 2
  {
    hide E.Tail, Begin, R.Steps, ProgramOk;
    var d := c.(task := Armed(s, c.task));
    R.OneStep(s, z, c);
    TailLate(s, z, d, w, n, E.Plain(r, s.h.retainControl(v), c.replies), fuel);
    LateAfter(s, z, c, R.Step(s, z, c), 1, fuel - 1, fuel);
  }

  lemma CalledLate(s: Setting, z: R.Limit, c: R.Solo, w: E.World, n: nat, entry: nat, v: V, fuel: nat)
    requires R.Stands(c.task, w, n, v) && s.image.Has(n) && fuel > 0 && Ample(s, z, c, fuel)
    requires var kind := s.image.nodes[n].kind;
      kind == Call(entry) || (kind.If? && s.h.truth(v).Ok? && entry == if s.h.truth(v).value then kind.yes else kind.no)
    requires E.Called(s, w, n, entry, v, c.replies, fuel).None?
    ensures Late(s, z, c, fuel)
    decreases fuel, 3
  {
    hide E.Eval, E.Tail, R.Step, R.Steps, ProgramOk, Late, Frugal, NoAppends;
    EntryHas(s, |c.task.env|, n, entry);
    R.CallSteps(s, z, c, w, n, entry, v);
    R.OneStep(s, z, c);
    var c1 := R.Step(s, z, c);
    var inner := E.Eval(s, w, entry, v, c.replies, fuel - 1);
    if inner.None? {
      EvalLate(s, z, c1, w, entry, v, fuel - 1);
      LateAfter(s, z, c, c1, 1, fuel - 1, fuel);
    } else {
      R.TailSame(s, w, n, E.Carry(s.h, E.Deeper(inner.value, 1)), E.Carry(s.h, inner.value), fuel);
      EvalFrugal(s, w, entry, v, c.replies, fuel - 1);
      FrugalFits(s, z, c1, inner.value, fuel - 1);
      var k1, pc1 := R.EvalLands(s, z, c1, w, entry, v, fuel - 1);
      var c2 := R.Landed(c1, inner.value, pc1);
      R.Compose(s, z, c, c1, 1, c2, k1);
      assert R.Below(c2.task).stack == c.task.stack;
      AmpleAgain(s, z, c, c1, inner.value, R.Popped(c2), fuel);
      FinishLate(s, z, c2, w, n, inner.value, fuel);
      LateAfter(s, z, c, c2, 1 + k1, fuel, fuel);
    }
  }

  lemma EntryHas(s: Setting, width: nat, n: nat, entry: nat)
    requires ProgramOk(s, width) && s.image.Has(n)
    requires var kind := s.image.nodes[n].kind;
      kind == Call(entry) || (kind.If? && (entry == kind.yes || entry == kind.no))
        || (kind.Scope? && entry == kind.body)
    ensures s.image.Has(entry)
  {
    TargetsIn(s, width, n);
    assert entry in Targets(s.image.nodes[n]);
  }

  /** A waiting task that no reply answers waits for ever. */
  lemma {:induction false} UnansweredLate(s: Setting, z: R.Limit, c: R.Solo, scope: bool, k: nat)
    requires c.task.state.Waiting? && s.image.Has(c.task.state.node)
    requires scope == s.image.nodes[c.task.state.node].kind.Scope? && E.Accepting(scope, c.replies).None?
    ensures Late(s, z, c, k)
    decreases |c.replies|
  {
    if c.replies == [] {
      StuckLate(s, z, c, k);
    } else {
      var d := c.(replies := c.replies[1..]);
      R.OneStep(s, z, c);
      UnansweredLate(s, z, d, scope, k);
      LateAfter(s, z, c, d, 1, k, k);
    }
  }

  lemma AskedLate(s: Setting, z: R.Limit, c: R.Solo, w: E.World, n: nat, port: nat, body: Option<nat>, v: V, fuel: nat)
    requires R.Stands(c.task, w, n, v) && s.image.Has(n) && fuel > 0 && Ample(s, z, c, fuel) && port < s.image.imports
    requires var kind := s.image.nodes[n].kind;
      (kind == Request(port) && body.None?) || (body.Some? && kind == Scope(port, body.value))
    requires E.Asked(s, w, n, port, body, v, c.replies, fuel).None?
    ensures Late(s, z, c, fuel)
    decreases fuel, 3
  {
    hide E.Eval, E.Tail, R.Step, R.Steps, E.Accepting, ProgramOk, Late;
    R.AskSteps(s, z, c, w, n, port, v);
    R.OneStep(s, z, c);
    var c1 := R.Step(s, z, c);
    var taken := E.Accepting(body.Some?, c.replies);
    if taken.None? {
      UnansweredLate(s, z, c1, body.Some?, fuel);
      LateAfter(s, z, c, c1, 1, fuel, fuel);
    } else {
      var k1 := R.RefusedDrop(s, z, c1, body.Some?);
      var c2 := c1.(replies := taken.value);
      R.Compose(s, z, c, c1, 1, c2, k1);
      TakenNoAppends(body.Some?, c.replies);
      AskedMissing(s, w, n, port, body, v, c.replies, fuel);
      if taken.value[0].Complete? {
        CompleteLate(s, z, c2, w, n, v, fuel);
      } else {
        EnterLate(s, z, c2, w, n, body.value, v, fuel);
      }
      LateAfter(s, z, c, c2, 1 + k1, fuel, fuel);
    }
  }

  /** What is missing from a host call without a meaning. */
  lemma AskedMissing(s: Setting, w: E.World, n: nat, port: nat, body: Option<nat>, v: V, replies: seq<HostEvent>,
      fuel: nat)
    requires s.image.Has(n) && fuel > 0 && port < s.image.imports
      && E.Asked(s, w, n, port, body, v, replies, fuel).None?
    requires E.Accepting(body.Some?, replies).Some?
    ensures var taken := E.Accepting(body.Some?, replies).value;
      && (taken[0].Complete? ==>
            var r := taken[0].result;
            E.Tail(s, w, n, E.Plain(r, s.h.influence(v, s.h.retainResult(r)), taken[1..]), fuel).None?)
      && (taken[0].Enter? ==>
            var inner := E.Eval(s, w.(context := taken[0].context), body.value, v, taken[1..], fuel - 1);
            inner.Some? ==> E.Tail(s, w, n, E.Carry(s.h, E.Carry(s.h, inner.value)), fuel).None?)
  {
    hide E.Eval, E.Tail, E.Accepting;
    var taken := E.Accepting(body.Some?, replies).value;
    var q := E.Question(port, v, w.context, s.image.nodes[n].position, w.cleanup);
    if taken[0].Complete? {
      var r := taken[0].result;
      var o := E.Plain(r, s.h.influence(v, s.h.retainResult(r)), taken[1..]);
      R.TailSame(s, w, n, o.(asked := [q]), o, fuel);
    } else if taken[0].Enter? {
      var inner := E.Eval(s, w.(context := taken[0].context), body.value, v, taken[1..], fuel - 1);
      if inner.Some? {
        var asked := E.After(E.Out(Ok(v), v, [q], taken[1..], 0), E.Deeper(inner.value, 2));
        R.TailSame(s, w, n, E.Carry(s.h, E.Carry(s.h, asked)), E.Carry(s.h, E.Carry(s.h, inner.value)), fuel);
      }
    }
  }

  lemma TakenNoAppends(scope: bool, replies: seq<HostEvent>)
    requires NoAppends(replies) && E.Accepting(scope, replies).Some?
    ensures var taken := E.Accepting(scope, replies).value; |taken| <= |replies| && NoAppends(taken)
  {
    AcceptingSuffix(scope, replies);
    var taken := E.Accepting(scope, replies).value;
    forall i | 0 <= i < |taken| ensures !taken[i].Continue? {
      assert taken[i] == replies[|replies| - |taken| + i];
    }
  }

  /** Storage for what follows a reply: its ticket is spent, and so is the reply. */
  ghost predicate Answerable(s: Setting, z: R.Limit, c: R.Solo, fuel: nat) {
    && ProgramOk(s, |c.task.env|) && R.Roomy(z, c.task, 2 * fuel)
    && c.replies != [] && c.ticket + |c.replies| <= U64_MAX && NoAppends(c.replies)
  }

  lemma CompleteLate(s: Setting, z: R.Limit, c: R.Solo, w: E.World, n: nat, v: V, fuel: nat)
    requires c.task.state.Waiting? && c.task.state.node == n && c.task.input == Some(v) && R.Within(c.task, w)
    requires s.image.Has(n) && fuel > 0 && Answerable(s, z, c, fuel) && c.replies[0].Complete?
    requires var r := c.replies[0].result;
      E.Tail(s, w, n, E.Plain(r, s.h.influence(v, s.h.retainResult(r)), c.replies[1..]), fuel).None?
    ensures Late(s, z, c, fuel)
    decreases fuel, 1
  {
    hide E.Tail, R.Steps, Conclude, ProgramOk, Late;
    var r := c.replies[0].result;
    var o := E.Plain(r, s.h.influence(v, s.h.retainResult(r)), c.replies[1..]);
    var d := c.(task := Charged(s.h, c.task, s.h.retainResult(r)), replies := c.replies[1..]);
    R.OneStep(s, z, c);
    TailLate(s, z, d, w, n, o, fuel);
    LateAfter(s, z, c, R.Step(s, z, c), 1, fuel - 1, fuel);
  }

  lemma EnterLate(s: Setting, z: R.Limit, c: R.Solo, w: E.World, n: nat, body: nat, v: V, fuel: nat)
    requires c.task.state.Waiting? && c.task.state.node == n && c.task.input == Some(v) && R.Within(c.task, w)
    requires s.image.Has(n) && s.image.nodes[n].kind.Scope? && s.image.nodes[n].kind.body == body
    requires fuel > 0 && Answerable(s, z, c, fuel) && c.replies[0].Enter?
    requires var inner := E.Eval(s, w.(context := c.replies[0].context), body, v, c.replies[1..], fuel - 1);
      inner.Some? ==> E.Tail(s, w, n, E.Carry(s.h, E.Carry(s.h, inner.value)), fuel).None?
    ensures Late(s, z, c, fuel)
    decreases fuel, 2
  {
    hide E.Eval, E.Tail, R.Step, R.Steps, ProgramOk, Late, Frugal;
    var x := c.replies[0].context;
    EntryHas(s, |c.task.env|, n, body);
    R.EnterSteps(s, z, c, w, n, body, v);
    R.OneStep(s, z, c);
    var c1 := R.Step(s, z, c);
    assert Ample(s, z, c1, fuel - 1);
    var inner := E.Eval(s, w.(context := x), body, v, c.replies[1..], fuel - 1);
    if inner.None? {
      EvalLate(s, z, c1, w.(context := x), body, v, fuel - 1);
      LateAfter(s, z, c, c1, 1, fuel - 1, fuel);
    } else {
      EvalFrugal(s, w.(context := x), body, v, c.replies[1..], fuel - 1);
      FrugalFits(s, z, c1, inner.value, fuel - 1);
      var k1, pc1 := R.EvalLands(s, z, c1, w.(context := x), body, v, fuel - 1);
      var c2 := R.Landed(c1, inner.value, pc1);
      assert R.Below(c2.task).stack == c.task.stack + [Finish(n)];
      R.ContextPops(s, z, c2, inner.value, w.context);
      var mid := E.Carry(s.h, E.Plain(inner.value.result, inner.value.control, inner.value.rest));
      var c3 := R.Landed(R.Popped(c2), mid, pc1).(task := R.Landed(R.Popped(c2), mid, pc1).task.(context := w.context));
      assert R.Below(c3.task).stack == c.task.stack;
      R.Compose(s, z, c, c1, 1, c2, k1);
      R.Compose(s, z, c, c2, 1 + k1, c3, 1);
      R.TailSame(s, w, n, E.Carry(s.h, E.Carry(s.h, inner.value)), E.Carry(s.h, mid), fuel);
      AmpleBack(s, z, c, c1, inner.value, R.Popped(c3), fuel);
      FinishLate(s, z, c3, w, n, mid, fuel);
      LateAfter(s, z, c, c3, 2 + k1, fuel, fuel);
    }
  }

  lemma AmpleBack(s: Setting, z: R.Limit, c: R.Solo, d: R.Solo, o: E.Out, e: R.Solo, fuel: nat)
    requires Answerable(s, z, c, fuel) && fuel > 0 && Ample(s, z, d, fuel - 1) && Frugal(o, d.replies, fuel - 1)
    requires e.ticket == d.ticket + |o.asked| && e.replies == o.rest && |e.task.env| == |c.task.env|
    requires |e.task.stack| == |c.task.stack|
    ensures Ample(s, z, e, fuel)
  {
    hide ProgramOk;
    forall i | 0 <= i < |e.replies| ensures !e.replies[i].Continue? {
      assert e.replies[i] == d.replies[|d.replies| - |o.rest| + i];
    }
  }

  // ----- frame by frame -----

  /** A frame that starts an entry in its own place. */
  lemma StartsLate(s: Setting, z: R.Limit, c: R.Solo, w: E.World, frame: FrameKind, o: E.Out, n: nat, v: V, fuel: nat)
    requires R.Facing(c, o, frame) && R.Within(R.Below(c.task), w) && s.image.Has(n) && Ample(s, z, R.Popped(c), fuel)
    requires PopFrame(s, R.Handling(s, c, o), frame, E.Carry(s.h, o).result, z.max, R.Room(z, R.Below(c.task)))
             == Next(Start(R.Handling(s, c, o), n, v))
    requires E.Eval(s, w, n, v, o.rest, fuel).None?
    ensures Late(s, z, c, fuel + 1)
    decreases fuel, 6
  {
    hide E.Eval, PopFrame, R.Step, R.Steps, ProgramOk, Late;
    R.PopStep(s, z, c, o, frame);
    R.OneStep(s, z, c);
    var c1 := R.Step(s, z, c);
    EvalLate(s, z, c1, w, n, v, fuel);
    LateAfter(s, z, c, c1, 1, fuel, fuel + 1);
  }

  lemma LoopLate(
    s: Setting, z: R.Limit, c: R.Solo, w: E.World, frame: FrameKind, o: E.Out, above: FrameKind, n: nat, v: V,
    fuel: nat)
    requires R.Facing(c, o, frame) && R.Within(R.Below(c.task), w) && s.image.Has(n)
      && Ample(s, z, R.Popped(c), fuel + 1)
    requires Structured(above) && FrameOk(s.image, |c.task.env|, above)
    requires PopFrame(s, R.Handling(s, c, o), frame, E.Carry(s.h, o).result, z.max, R.Room(z, R.Below(c.task)))
             == Next(Start(Push(R.Handling(s, c, o), above), n, v))
    requires var inner := E.Eval(s, w, n, v, o.rest, fuel);
      inner.Some? ==> E.Resume(s, w, above, inner.value, fuel).None?
    ensures Late(s, z, c, fuel + 1)
    decreases fuel, 6
  {
    hide E.Eval, E.Resume, PopFrame, R.Step, R.Steps, ProgramOk, Late, Frugal, FrameOk;
    R.PopStep(s, z, c, o, frame);
    R.OneStep(s, z, c);
    var c1 := R.Step(s, z, c);
    var inner := E.Eval(s, w, n, v, o.rest, fuel);
    if inner.None? {
      EvalLate(s, z, c1, w, n, v, fuel);
      LateAfter(s, z, c, c1, 1, fuel, fuel + 1);
    } else {
      EvalFrugal(s, w, n, v, o.rest, fuel);
      FrugalFits(s, z, c1, inner.value, fuel);
      var k1, pc1 := R.EvalLands(s, z, c1, w, n, v, fuel);
      var c2 := R.Landed(c1, inner.value, pc1);
      assert R.Below(c2.task).stack == R.Below(c.task).stack;
      R.Compose(s, z, c, c1, 1, c2, k1);
      AmpleAfter(s, z, R.Popped(c), inner.value, R.Popped(c2), fuel + 1, fuel);
      ResumeLate(s, z, c2, w, above, inner.value, fuel);
      LateAfter(s, z, c, c2, 1 + k1, fuel, fuel + 1);
    }
  }

  /** A frame whose inner part never ends. */
  lemma InnerLate(
    s: Setting, z: R.Limit, c: R.Solo, w: E.World, frame: FrameKind, o: E.Out, t: Task, n: nat, v: V, fuel: nat)
    requires R.Facing(c, o, frame) && s.image.Has(n) && Ample(s, z, R.Popped(c), fuel + 1)
    requires PopFrame(s, R.Handling(s, c, o), frame, E.Carry(s.h, o).result, z.max, R.Room(z, R.Below(c.task))) ==
      Next(t)
    requires R.Stands(t, w, n, v) && |t.stack| == |c.task.stack| && |t.env| == |c.task.env|
    requires E.Eval(s, w, n, v, o.rest, fuel).None?
    ensures Late(s, z, c, fuel + 1)
    decreases fuel, 6
  {
    hide E.Eval, PopFrame, R.Step, R.Steps, ProgramOk, Late;
    R.PopStep(s, z, c, o, frame);
    R.OneStep(s, z, c);
    var c1 := R.Step(s, z, c);
    EvalLate(s, z, c1, w, n, v, fuel);
    LateAfter(s, z, c, c1, 1, fuel, fuel + 1);
  }

  lemma ResumeLate(s: Setting, z: R.Limit, c: R.Solo, w: E.World, frame: FrameKind, o: E.Out, fuel: nat)
    requires R.Facing(c, o, frame) && R.Within(R.Below(c.task), w) && Structured(frame)
      && FrameOk(s.image, |c.task.env|, frame)
    requires E.Resume(s, w, frame, o, fuel).None? && Ample(s, z, R.Popped(c), fuel)
    ensures Late(s, z, c, fuel)
    decreases fuel, 4
  {
    hide E.Eval, R.Step, ProgramOk, NoAppends;
    if fuel > 0 {
      hide R.Steps, Late;
      var d := E.Carry(s.h, E.Plain(o.result, o.control, o.rest));
      match frame
      case ThenFrame(after) => StartsLate(s, z, c, w, frame, o, after, d.result.value, fuel - 1);
      case CatchFrame(recover) =>
        StartsLate(s, z, c, w, frame, o, recover, s.h.influence(s.h.errorValue(d.result.error), d.control), fuel - 1);
      case FinallyFrame(cleanup, input) =>
        var t := Start(Push(R.Handling(s, c, o), Cleaned(E.Carry(s.h, o).result)).(cleaning := c.task.cleaning + 1),
          cleanup, input);
        InnerLate(s, z, c, w.(cleanup := true), frame, o, t, cleanup, input, fuel - 1);
      case Choose(yes, no, input) =>
        var entry := if s.h.truth(d.result.value).value then yes else no;
        StartsLate(s, z, c, w, frame, o, entry, s.h.influence(input, d.result.value), fuel - 1);
      case Bind(slot, body) =>
        var x := d.result.value;
        var t := Start(Push(R.Handling(s, c, o), Unbind(slot, w.env[slot])).(env := w.env[slot := Some(x)]), body, x);
        InnerLate(s, z, c, w.(env := w.env[slot := Some(x)]), frame, o, t, body, x, fuel - 1);
      case Condition(condition, body, left, value) =>
        LoopLate(s, z, c, w, frame, o, Iteration(condition, body, left - 1), body, s.h.influence(value, d.result.value),
          fuel - 1);
      case Iteration(condition, body, left) =>
        LoopLate(s, z, c, w, frame, o, Condition(condition, body, left, d.result.value), condition, d.result.value,
          fuel - 1);
    }
  }

  // ----- the whole execution -----

  /** Room for whatever a run of so many host calls can do. */
  ghost predicate Spacious(l: Launch, replies: seq<HostEvent>, k: nat) {
    2 * k <= l.limits.framesPerTask && 2 * k <= l.capacity && |replies| < U64_MAX && NoAppends(replies)
  }

  predicate ForkFree(image: Image) { forall n :: 0 <= n < |image.nodes| ==> !image.nodes[n].kind.Fork? }

  /** Without forks, every scripted run follows the lone task for as long as it lasts. */
  lemma {:induction false} FollowsFree(s: Setting, z: R.Limit, c: R.Solo, states: seq<Machine>, moves: seq<Move>)
    requires IsRun(s, states, moves) && Driven(states, moves, c.replies) && Alone(states[0], z, c) && ForkFree(s.image)
    ensures Alone(states[|moves|], z, R.Steps(s, z, c, |moves|))
    decreases |moves|
  {
    hide R.Step, Alone, Apply, Shown;
    if moves != [] {
      AloneHas(states[0], z, c);
      AloneMoves(s, states[0], z, c);
      MoveSteps(s, states[0], z, c, moves[0]);
      FollowsFree(s, z, R.Step(s, z, c), states[1..], moves[1..]);
    }
  }

  lemma AloneMoves(s: Setting, m: Machine, z: R.Limit, c: R.Solo)
    requires Alone(m, z, c) && ForkFree(s.image) && (c.task.state.Waiting? ==> c.replies != [])
    ensures Moving(s, c) || c.task.state.Done?
  {
  }

  /** A scripted run that finishes computes a program that has a meaning: together with
      `ScriptedRunEvaluates`, the machine finishes exactly the programs the evaluator defines, with
      exactly its results. */
  lemma FinishedRunMeans(
    s: Setting, l: Launch, replies: seq<HostEvent>, states: seq<Machine>, moves: seq<Move>) returns (o: E.Out)
    requires Launched(s, l, states, moves) && Driven(states, moves, replies) && l.limits.maxSteps.None?
    requires ForkFree(s.image) && Spacious(l, replies, |moves| + 1) && states[|moves|].tasks[0].state.Done?
    ensures Means(s, l, replies, |moves| + 1, o)
  {
    hide E.Eval, R.Step, R.Steps, Driven, Apply, First;
    var k := |moves| + 1;
    var c, z := Origin(s, l, replies), Storage(l);
    OriginStands(s, l, replies);
    var meaning := E.Eval(s, Outset(l), s.image.entry, l.input, replies, k);
    OriginAlone(s, l, replies);
    FollowsFree(s, z, c, states, moves);
    AloneHas(states[|moves|], z, R.Steps(s, z, c, |moves|));
    if meaning.None? {
      EvalLate(s, z, c, Outset(l), s.image.entry, l.input, k);
      LateEarlier(s, z, c, |moves|, k);
      assert false;
    }
    o := meaning.value;
    EvalFrugal(s, Outset(l), s.image.entry, l.input, replies, k);
  }

  lemma LateEarlier(s: Setting, z: R.Limit, c: R.Solo, j: nat, k: nat)
    requires Late(s, z, c, k) && j <= k
    ensures Late(s, z, c, j)
  {
    LateAfter(s, z, c, c, 0, k, j);
  }

  lemma OriginStands(s: Setting, l: Launch, replies: seq<HostEvent>)
    requires Admits(s, l)
    ensures var c := Origin(s, l, replies);
      && R.Stands(c.task, Outset(l), s.image.entry, l.input) && c.ticket == 0 && c.replies == replies
      && c.task.stack == [] && |c.task.env| == l.limits.bindingsPerTask && ProgramOk(s, |c.task.env|)
        && s.image.Has(s.image.entry)
  {
    assert Origin(s, l, replies).task.env == Outset(l).env;
  }

  // ----- storage of any size -----

  /** A task that does not run short of frames takes the same step in larger storage. */
  lemma SameStep(s: Setting, z: R.Limit, y: R.Limit, c: R.Solo)
    requires z.max <= y.max && z.pool <= y.pool && G.Narrow(s, |c.task.env|, c.task)
    requires c.task.state.Ready? ==>
      s.image.Has(c.task.pc) && !G.Short(Begin(s, c.task, z.max, R.Room(z, c.task), c.ticket))
    requires c.task.state.Returning? ==> !G.Short(Unwind(s, c.task, z.max, R.Room(z, c.task)))
    requires c.task.state.Waiting? && c.replies != [] ==>
      !G.Short(Answer(s, c.task, c.replies[0], z.max, R.Room(z, c.task)))
    ensures R.Step(s, y, c) == R.Step(s, z, c)
  {
    hide Begin, Unwind, Answer, G.Narrow;
    var t, w := c.task, |c.task.env|;
    SameWidth(t);
    if t.state.Ready? {
      G.WidenBegin(s, t, z.max, R.Room(z, t), c.ticket, w, y.max, R.Room(y, t));
      G.BeginRow(s, t, z.max, R.Room(z, t), c.ticket);
      SameLocal(Begin(s, t, z.max, R.Room(z, t), c.ticket));
    } else if t.state.Returning? {
      G.WidenUnwind(s, t, z.max, R.Room(z, t), w, y.max, R.Room(y, t));
      G.UnwindRow(s, t, z.max, R.Room(z, t));
      SameLocal(Unwind(s, t, z.max, R.Room(z, t)));
    } else if t.state.Waiting? && c.replies != [] {
      G.WidenAnswer(s, t, c.replies[0], z.max, R.Room(z, t), w, y.max, R.Room(y, t));
      G.AnswerRow(s, t, c.replies[0], z.max, R.Room(z, t));
      SameLocal(Answer(s, t, c.replies[0], z.max, R.Room(z, t)));
    }
  }

  lemma SameWidth(t: Task)
    ensures Widen(t, |t.env|) == t
  {
    assert t.env + seq(0, _ => None) == t.env;
  }

  lemma SameLocal(l: Local)
    ensures G.WidenLocal(l, |l.task.env|) == l
  {
    SameWidth(l.task);
  }

  /** The calls of the run do not run out of storage. */
  ghost predicate Unstrained(s: Setting, states: seq<Machine>, moves: seq<Move>)
    requires |states| == |moves| + 1 && forall k :: 0 <= k < |states| ==> |states[k].tasks| > 0
  {
    forall k :: 0 <= k < |moves| ==> !G.Strains(s, states[k], moves[k])
  }

  /** What it means for the lone task that a call does not run out of storage. */
  lemma EasyMove(s: Setting, m: Machine, z: R.Limit, c: R.Solo, move: Move)
    requires Alone(m, z, c) && Drives(c, move) && !G.Strains(s, m, move)
    ensures c.task.state.Ready? ==> !G.Short(Begin(s, c.task, z.max, R.Room(z, c.task), c.ticket))
    ensures c.task.state.Returning? ==> !G.Short(Unwind(s, c.task, z.max, R.Room(z, c.task)))
    ensures c.task.state.Waiting? ==> !G.Short(Answer(s, c.task, c.replies[0], z.max, R.Room(z, c.task)))
  {
    hide Occupied, AllFrames, Begin, Unwind, Answer;
    AliveOccupied(m, z, c);
    if c.task.state.Ready? || c.task.state.Returning? {
      RootActs(s, m, z, c);
    }
  }

  lemma RootActs(s: Setting, m: Machine, z: R.Limit, c: R.Solo)
    requires Alone(m, z, c) && (c.task.state.Ready? || c.task.state.Returning?)
    ensures Acting(s, m) == Some((Spend(m, 0), 0))
  {
    hide Scan;
    Scheduling.ScanFirst(m.tasks, m.cursor);
    assert Look(m.tasks, 0) == Run;
    assert forall k :: 1 <= k < |m.tasks| ==> Look(m.tasks, k) == Skip;
    assert m.tasks[0 := m.tasks[0]] == m.tasks;
  }

  /** A run that does not run out of storage follows the lone task in larger storage as well. */
  lemma {:induction false} FollowsWide(
    s: Setting, z: R.Limit, y: R.Limit, c: R.Solo, states: seq<Machine>, moves: seq<Move>, tree: Tree)
    requires IsRun(s, states, moves) && Driven(states, moves, c.replies) && Alone(states[0], z, c) && ForkFree(s.image)
    requires Inv(s, states[0], tree) && Unstrained(s, states, moves) && z.max <= y.max && z.pool <= y.pool
    ensures R.Steps(s, y, c, |moves|) == R.Steps(s, z, c, |moves|)
    decreases |moves|
  {
    hide R.Step, Alone, Apply, Shown, Inv, G.Strains, Legal, Begin, Unwind, Answer;
    if moves != [] {
      AloneHas(states[0], z, c);
      AloneMoves(s, states[0], z, c);
      MoveSteps(s, states[0], z, c, moves[0]);
      G.NarrowAt(s, states[0], tree, 0);
      EasyMove(s, states[0], z, c, moves[0]);
      SameStep(s, z, y, c);
      var next := ApplyKeeps(s, states[0], tree, moves[0]);
      FollowsWide(s, z, y, R.Step(s, z, c), states[1..], moves[1..], next);
    }
  }

  /** In storage of any size: a scripted run that finishes without having run out of storage
      computes a program that has a meaning, and ends as the evaluator says. */
  lemma TightRunMeans(
    s: Setting, l: Launch, replies: seq<HostEvent>, states: seq<Machine>, moves: seq<Move>) returns (o: E.Out)
    requires Launched(s, l, states, moves) && Driven(states, moves, replies) && l.limits.maxSteps.None?
    requires ForkFree(s.image) && NoAppends(replies) && |replies| < U64_MAX
    requires states[|moves|].tasks[0].state.Done? && Unstrained(s, states, moves)
    ensures E.Eval(s, Outset(l), s.image.entry, l.input, replies, |moves| + 1) == Some(o)
    ensures Realization.Settled(s, l, states[|moves|], o) && Trace(s, states, moves) == o.asked
  {
    hide E.Eval, R.Step, R.Steps, Driven, Apply, First, Unstrained, Alone, Realization.Settled, Trace, Inv;
    var n, k := |moves|, |moves| + 1;
    var c, z := Origin(s, l, replies), Storage(l);
    var y := R.Limit(Max(z.max, 2 * k), Max(z.pool, 2 * k));
    OriginStands(s, l, replies);
    var meaning := E.Eval(s, Outset(l), s.image.entry, l.input, replies, k);
    OriginAlone(s, l, replies);
    FirstInv(s, l);
    FollowsWide(s, z, y, c, states, moves, Solo(0));
    FollowsFree(s, z, c, states, moves);
    AloneHas(states[n], z, R.Steps(s, z, c, n));
    if meaning.None? {
      EvalLate(s, y, c, Outset(l), s.image.entry, l.input, k);
      LateEarlier(s, y, c, n, k);
      assert false;
    }
    o := meaning.value;
    EvalFrugal(s, Outset(l), s.image.entry, l.input, replies, k);
    var j := SoloReaches(s, l, y, replies, k, o);
    DoneFrom(s, y, c, j, n);
    Follows(s, z, c, states, moves, n);
    assert [] + Trace(s, states, moves) == Trace(s, states, moves);
    SettledAt(s, l, states[n], z, c, R.Steps(s, z, c, n), o);
  }
}
