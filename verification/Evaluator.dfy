/** A recursive evaluator for structured programs, without stacks or program counters:
    the meaning that the frame machine of crates/xolotl-core/src/machine.rs must realize. */
module Evaluator {
  import opened Program
  import opened Machine

  /** One host call, as the host sees it. */
  datatype Question = Question(port: nat, input: V, context: nat, position: nat, cleanup: bool)

  /** How a program ends: its result, the control it depends on, the host calls it made,
      the replies it left unused, and the continuations it held at once. */
  datatype Out = Out(result: Res, control: V, asked: seq<Question>, rest: seq<HostEvent>, peak: nat)

  /** The lexical surroundings of an instruction. */
  datatype World = World(env: seq<Option<V>>, context: nat, cleanup: bool)

  /** A result passing one level up: it takes on its control, and becomes control itself. */
  function Carry(h: Values, o: Out): Out {
    var r := h.influenceResult(o.result, o.control);
    o.(result := r, control := h.influence(h.retainResult(r), o.control))
  }

  /** `o` run with `d` more continuations held around it. */
  function Deeper(o: Out, d: nat): Out { o.(peak := o.peak + d) }

  /** `b` run after `a`. */
  function After(a: Out, b: Out): Out { b.(asked := a.asked + b.asked, peak := Max(a.peak, b.peak)) }

  function AfterAll(a: Out, b: Option<Out>): Option<Out> { if b.Some? then Some(After(a, b.value)) else None }

  function Plain(result: Res, control: V, replies: seq<HostEvent>): Out { Out(result, control, [], replies, 0) }

  /** The first reply the instruction takes; an entry answers only a scope. */
  function Accepting(scope: bool, replies: seq<HostEvent>): (r: Option<seq<HostEvent>>)
    ensures r.Some? ==> |r.value| > 0 && |r.value| <= |replies| && (r.value[0].Enter? ==> scope)
  {
    if replies == [] then None
    else if replies[0].Enter? && !scope then Accepting(scope, replies[1..])
    else Some(replies)
  }

  /** What follows an instruction that has ended with `o`: its implicit continuation, or its result. */
  function Tail(s: Setting, w: World, n: nat, o: Out, fuel: nat): Option<Out>
    requires s.image.Has(n) && fuel > 0
    decreases fuel, 0
  {
    var r := s.h.influenceResult(o.result, o.control);
    if r.Ok? && s.image.nodes[n].next.Some?
    then Eval(s, w, s.image.nodes[n].next.value, r.value, o.rest, fuel - 1)
    else Some(Plain(r, o.control, o.rest))
  }

  /** An instruction that has ended with `o`, and what follows it. */
  function Ended(s: Setting, w: World, n: nat, o: Out, fuel: nat): Option<Out>
    requires s.image.Has(n) && fuel > 0
    decreases fuel, 1
  {
    var t := Tail(s, w, n, o, fuel);
    if t.Some? then Some(After(o, t.value)) else None
  }

  /** The meaning of instruction `n` on input `v`, answered by `replies` in order. */
  function Eval(s: Setting, w: World, n: nat, v: V, replies: seq<HostEvent>, fuel: nat): Option<Out>
    decreases fuel, 4
  {
    if fuel == 0 || !s.image.Has(n) then None
    else
      var kind := s.image.nodes[n].kind;
      var opening := OpeningOf(kind, v);
      if opening.Some? then
        var first := Eval(s, w, opening.value.entry, v, replies, fuel - 1);
        if first.None? then None
        else
          var second := Resume(s, w, opening.value.frame, first.value, fuel - 1);
          if second.None? then None
          else Ended(s, w, n, Carry(s.h, After(Deeper(first.value, 2), Deeper(second.value, 1))), fuel)
      else EvalLeaf(s, w, n, kind, v, replies, fuel)
  }

  function EvalLeaf(s: Setting, w: World, n: nat, kind: NodeKind, v: V, replies: seq<HostEvent>, fuel: nat): Option<Out>
    requires s.image.Has(n) && fuel > 0
    decreases fuel, 3
  {
    var control := s.h.retainControl(v);
    match kind
    case Literal(c) => Ended(s, w, n, Plain(Ok(s.h.influence(c, v)), control, replies), fuel)
    case Input => Ended(s, w, n, Plain(Ok(v), control, replies), fuel)
    case Fail(e) => Ended(s, w, n, Plain(Err(e), control, replies), fuel)
    case Load(slot) =>
      if slot < |w.env| && w.env[slot].Some?
      then Ended(s, w, n, Plain(Ok(s.h.influence(w.env[slot].value, v)), control, replies), fuel)
      else
        var fault := if slot < |w.env| then MissingBinding else InvalidBinding;
        Some(Plain(s.h.influenceResult(Err(s.h.error(fault)), control), control, replies))
    case If(yes, no) =>
      (match s.h.truth(v)
       case Ok(b) => Called(s, w, n, if b then yes else no, v, replies, fuel)
       case Err(e) => Ended(s, w, n, Plain(Err(e), control, replies), fuel))
    case Call(entry) => Called(s, w, n, entry, v, replies, fuel)
    case Request(port) => Asked(s, w, n, port, None, v, replies, fuel)
    case Scope(port, body) => Asked(s, w, n, port, Some(body), v, replies, fuel)
    case _ => None
  }

  function Called(s: Setting, w: World, n: nat, entry: nat, v: V, replies: seq<HostEvent>, fuel: nat): Option<Out>
    requires s.image.Has(n) && fuel > 0
    decreases fuel, 2
  {
    var inner := Eval(s, w, entry, v, replies, fuel - 1);
    if inner.None? then None else Ended(s, w, n, Carry(s.h, Deeper(inner.value, 1)), fuel)
  }

  /** A host call; a scope may be answered by entering its body in another context. */
  function Asked(
    s: Setting, w: World, n: nat, port: nat, body: Option<nat>, v: V, replies: seq<HostEvent>, fuel: nat): Option<Out>
    requires s.image.Has(n) && fuel > 0
    decreases fuel, 2
  {
    var taken := Accepting(body.Some?, replies);
    if port >= s.image.imports || taken.None? then None
    else
      var question := Out(Ok(v), v, [Question(port, v, w.context, s.image.nodes[n].position, w.cleanup)],
        taken.value[1..], 0);
      match taken.value[0]
      case Complete(r) => Ended(s, w, n, question.(result := r, control := s.h.influence(v, s.h.retainResult(r))), fuel)
      case Enter(context) =>
        var inner := Eval(s, w.(context := context), body.value, v, taken.value[1..], fuel - 1);
        if inner.None? then None
        else Ended(s, w, n, Carry(s.h, Carry(s.h, After(question, Deeper(inner.value, 2)))), fuel)
      case Continue(_, _) => None
  }

  /** What a guarded instruction does once the part it guards has ended with `o`. */
  function Resume(s: Setting, w: World, frame: FrameKind, o: Out, fuel: nat): Option<Out>
    decreases fuel, 1
  {
    if fuel == 0 then None
    else
      var c := Carry(s.h, Plain(o.result, o.control, o.rest));
      match frame
      case ThenFrame(after) => if c.result.Ok? then Eval(s, w, after, c.result.value, c.rest, fuel - 1) else Some(c)
      case CatchFrame(recover) =>
        if c.result.Err?
        then Eval(s, w, recover, s.h.influence(s.h.errorValue(c.result.error), c.control), c.rest, fuel - 1)
        else Some(c)
      case FinallyFrame(cleanup, input) =>
        var k := Eval(s, w.(cleanup := true), cleanup, input, c.rest, fuel - 1);
        if k.None? then None
        else
          var d := Carry(s.h, Deeper(k.value, 1));
          Some(d.(result := s.h.influenceResult(Settled(c.result, d.result), s.h.retainResult(c.result))))
      case Choose(yes, no, input) =>
        if c.result.Err? then Some(c)
        else
          (match s.h.truth(c.result.value)
           case Ok(b) => Eval(s, w, if b then yes else no, s.h.influence(input, c.result.value), c.rest, fuel - 1)
           case Err(e) => Some(c.(result := Err(e))))
      case Bind(slot, body) =>
        if c.result.Err? then Some(c)
        else if slot >= |w.env| then None
        else
          var x := c.result.value;
          var inner := Eval(s, w.(env := w.env[slot := Some(x)]), body, x, c.rest, fuel - 1);
          if inner.None? then None else Some(Carry(s.h, Deeper(inner.value, 1)))
      case Condition(condition, body, left, value) =>
        if c.result.Err? then Some(c)
        else
          (match s.h.truth(c.result.value)
           case Err(e) => Some(c.(result := Err(e)))
           case Ok(b) =>
             if !b then Some(c.(result := Ok(s.h.influence(value, c.result.value))))
             else if left == 0 then Some(c.(result := Err(s.h.error(Iterations))))
             else
               var inner := Eval(s, w, body, s.h.influence(value, c.result.value), c.rest, fuel - 1);
               if inner.None? then None
               else AfterAll(Deeper(inner.value, 1),
                 Resume(s, w, Iteration(condition, body, left - 1), inner.value, fuel - 1)))
      case Iteration(condition, body, left) =>
        if c.result.Err? then Some(c)
        else
          var x := c.result.value;
          var inner := Eval(s, w, condition, x, c.rest, fuel - 1);
          if inner.None? then None
          else AfterAll(Deeper(inner.value, 1),
            Resume(s, w, Condition(condition, body, left, x), inner.value, fuel - 1))
      case _ => None
  }
}
