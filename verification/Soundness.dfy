/** The bounds the analysis reports are sound for every run of the machine. */
module Soundness {
  import opened Program
  import opened Machine
  import opened Runs
  import opened Bounds
  import opened Storage
  import U = Usage
  import A = Analysis
  import T = Traversal

  /** The whole image as one module. */
  function Whole(image: Image): A.Graph
    requires image.entry < |image.nodes|
  {
    T.ModuleGraph(image, image.entry, 0, |image.nodes|)
  }

  lemma WholeOk(image: Image)
    requires Valid(image)
    ensures A.GraphOk(Whole(image)) && Whole(image).nodes == image.nodes
  {
    forall i | 0 <= i < |image.nodes|
      ensures IndexFault(image.nodes[i], 0, |image.nodes|, image.imports, image.bindings).None?
    {
      assert NodeValid(image, image.nodes[i]);
    }
    T.ModuleOk(image, image.entry, 0, |image.nodes|);
  }

  /** The peak of instruction `n`, fully expanded. */
  function PeakOf(g: A.Graph, n: nat): U.Need { U.Peak(g.nodes, g.lo, n, |g.nodes|) }

  // ----- an instruction's peak covers everything it starts -----

  /** A sum over some edges is at least each of its parts. */
  ghost predicate Includes(t: U.Sums, e: U.Edge, c: U.Need) {
    if e.fork then c.own <= t.need.child && c.child <= t.need.child
    else
      && e.frames + c.own <= t.need.own && c.child <= t.need.child
      && c.tasks <= t.need.tasks && e.frames + c.frames <= t.need.frames
  }

  lemma {:induction false} SumsInclude(g: A.Graph, v: nat, depth: nat, k: nat, j: nat)
    requires A.GraphOk(g) && v < |g.nodes| && 0 < depth && j < k <= 4
    requires A.Target(g, v, j).Some?
    ensures Includes(U.PeakSums(g.nodes, g.lo, v, depth, k), U.Edges(g.nodes[v])[j].value,
                     U.Peak(g.nodes, g.lo, A.Target(g, v, j).value, depth - 1))
  {
    hide U.Peak, U.PeakSums;
    A.PeakStep(g, v, depth, k);
    if j < k - 1 {
      SumsInclude(g, v, depth, k - 1, j);
    }
  }

  lemma {:induction false} SumsBase(g: A.Graph, v: nat, depth: nat, k: nat)
    requires A.GraphOk(g) && v < |g.nodes| && 0 < depth && k <= 4
    ensures var t := U.PeakSums(g.nodes, g.lo, v, depth, k); 1 <= t.need.tasks && 1 <= t.forkTasks
  {
    if k == 0 {
    } else {
      SumsBase(g, v, depth, k - 1);
      A.PeakStep(g, v, depth, k);
      hide U.PeakSums, U.Peak;
    }
  }

  /** Children of a sorted instruction have the same peak one level down. */
  lemma ChildPeak(g: A.Graph, order: seq<nat>, i: nat, k: nat)
    requires A.GraphOk(g) && A.Sorted(g, order) && i < |order| && k < 4 && A.Target(g, order[i], k).Some?
    ensures var w := A.Target(g, order[i], k).value;
      w in order && U.Peak(g.nodes, g.lo, w, |g.nodes| - 1) == PeakOf(g, w)
  {
    var w := A.Target(g, order[i], k).value;
    assert w in order[..i];
    var j :| 0 <= j < i && order[j] == w;
    A.SortedShort(order, |g.nodes|);
    A.PeakStable(g, order, j, |g.nodes| - 1, |g.nodes|);
  }

  /** A sorted instruction's peak against that of the instruction its `k`-th edge starts. */
  lemma PeakIncludes(g: A.Graph, order: seq<nat>, n: nat, k: nat)
    requires A.GraphOk(g) && A.Sorted(g, order) && n in order && k < 4 && A.Target(g, n, k).Some?
    ensures var w, e, p := A.Target(g, n, k).value, U.Edges(g.nodes[n])[k].value, PeakOf(g, n);
      && w in order
      && (e.fork ==> PeakOf(g, w).own <= p.child && PeakOf(g, w).child <= p.child)
      && (!e.fork ==>
            && e.frames + PeakOf(g, w).own <= p.own && PeakOf(g, w).child <= p.child
            && PeakOf(g, w).tasks <= p.tasks && e.frames + PeakOf(g, w).frames <= p.frames)
  {
    var i :| 0 <= i < |order| && order[i] == n;
    ChildPeak(g, order, i, k);
    PeakTotals(g, n);
    hide U.Peak, U.PeakSums;
    SumsInclude(g, n, |g.nodes|, 4, k);
  }

  lemma PeakTotals(g: A.Graph, n: nat)
    requires n < |g.nodes|
    ensures var t, p := U.PeakSums(g.nodes, g.lo, n, |g.nodes|, 4), PeakOf(g, n);
      && p.own == t.need.own && p.child == t.need.child
      && p.tasks == Max(t.need.tasks, t.forkTasks) && p.frames == Max(t.need.frames, t.forkFrames)
  {
  }

  lemma PeakPositive(g: A.Graph, n: nat)
    requires A.GraphOk(g) && n < |g.nodes|
    ensures 1 <= PeakOf(g, n).tasks
  {
    SumsBase(g, n, |g.nodes|, 4);
    PeakTotals(g, n);
  }

  /** A fork's peak covers both branches at the same time. */
  lemma PeakForks(g: A.Graph, order: seq<nat>, n: nat)
    requires A.GraphOk(g) && A.Sorted(g, order) && n in order && g.nodes[n].kind.Fork?
    ensures var l, r, p := A.Target(g, n, 0).value, A.Target(g, n, 1).value, PeakOf(g, n);
      && 1 + PeakOf(g, l).tasks + PeakOf(g, r).tasks <= p.tasks
      && PeakOf(g, l).frames + PeakOf(g, r).frames <= p.frames
  {
    var i :| 0 <= i < |order| && order[i] == n;
    ChildPeak(g, order, i, 0);
    ChildPeak(g, order, i, 1);
    PeakTotals(g, n);
    var d := |g.nodes|;
    SumsNone(g, n, d);
    hide U.Peak, U.PeakSums;
    A.PeakStep(g, n, d, 1);
    A.PeakStep(g, n, d, 2);
    A.PeakStep(g, n, d, 3);
    A.PeakStep(g, n, d, 4);
  }

  lemma SumsNone(g: A.Graph, v: nat, depth: nat)
    requires v < |g.nodes| && 0 < depth
    ensures var t := U.PeakSums(g.nodes, g.lo, v, depth, 0); t.forkTasks == 1 && t.forkFrames == 0
  {
  }

  // ----- tables from peaks -----

  ghost function TasksTable(g: A.Graph, order: seq<nat>, cap: nat): nat -> nat {
    n => if n in order then PeakOf(g, n).tasks else cap + 1
  }

  ghost function PoolTable(g: A.Graph, order: seq<nat>, cap: nat): nat -> nat {
    n => if n in order then PeakOf(g, n).frames else cap + 1
  }

  /** The depth of one stack, for instructions whose branches stay within `cap` as well. */
  ghost function DepthTable(g: A.Graph, order: seq<nat>, cap: nat): nat -> nat {
    n => if n in order && PeakOf(g, n).child <= cap then PeakOf(g, n).own else cap + 1
  }

  /** An instruction is covered when each of its local edges is. */
  lemma EdgesCover(k: Metric, need: nat -> nat, node: Node, v: nat)
    requires k.base <= v
    requires forall j :: 0 <= j < 4 && U.Edges(node)[j].Some? && !U.Edges(node)[j].value.fork ==>
      W(k, U.Edges(node)[j].value.frames) + need(U.Edges(node)[j].value.entry) <= v
    ensures Covered(k, need, node, v)
  {
    var es := U.Edges(node);
    assert es[0] == U.Edges(node)[0] && es[1] == U.Edges(node)[1] && es[2] == U.Edges(node)[2]
      && es[3] == U.Edges(node)[3];
  }

  lemma TasksTableOk(image: Image, order: seq<nat>, cap: nat)
    requires Valid(image) && A.GraphOk(Whole(image)) && A.Sorted(Whole(image), order)
    ensures Table(image, TASKS, TasksTable(Whole(image), order, cap), cap)
    ensures ForkTable(image, TASKS, TasksTable(Whole(image), order, cap), cap)
  {
    hide U.Peak, U.PeakSums;
    var g := Whole(image);
    var need := TasksTable(g, order, cap);
    forall n | 0 <= n < |image.nodes| && need(n) <= cap ensures Covered(TASKS, need, image.nodes[n], need(n)) {
      PeakPositive(g, n);
      forall j | 0 <= j < 4 && U.Edges(image.nodes[n])[j].Some? && !U.Edges(image.nodes[n])[j].value.fork
        ensures need(U.Edges(image.nodes[n])[j].value.entry) <= need(n)
      {
        PeakIncludes(g, order, n, j);
      }
      EdgesCover(TASKS, need, image.nodes[n], need(n));
    }
    forall n | 0 <= n < |image.nodes| && need(n) <= cap && image.nodes[n].kind.Fork?
      ensures 1 + need(image.nodes[n].kind.left) + need(image.nodes[n].kind.right) <= need(n)
    {
      PeakForks(g, order, n);
      PeakIncludes(g, order, n, 0);
      PeakIncludes(g, order, n, 1);
    }
  }

  lemma PoolTableOk(image: Image, order: seq<nat>, cap: nat)
    requires Valid(image) && A.GraphOk(Whole(image)) && A.Sorted(Whole(image), order)
    ensures Table(image, POOL, PoolTable(Whole(image), order, cap), cap)
    ensures ForkTable(image, POOL, PoolTable(Whole(image), order, cap), cap)
  {
    hide U.Peak, U.PeakSums;
    var g := Whole(image);
    var need := PoolTable(g, order, cap);
    forall n | 0 <= n < |image.nodes| && need(n) <= cap ensures Covered(POOL, need, image.nodes[n], need(n)) {
      forall j | 0 <= j < 4 && U.Edges(image.nodes[n])[j].Some? && !U.Edges(image.nodes[n])[j].value.fork
        ensures U.Edges(image.nodes[n])[j].value.frames + need(U.Edges(image.nodes[n])[j].value.entry) <= need(n)
      {
        PeakIncludes(g, order, n, j);
      }
      EdgesCover(POOL, need, image.nodes[n], need(n));
    }
    forall n | 0 <= n < |image.nodes| && need(n) <= cap && image.nodes[n].kind.Fork?
      ensures need(image.nodes[n].kind.left) + need(image.nodes[n].kind.right) <= need(n)
    {
      PeakForks(g, order, n);
      PeakIncludes(g, order, n, 0);
      PeakIncludes(g, order, n, 1);
    }
  }

  lemma DepthTableOk(image: Image, order: seq<nat>, cap: nat)
    requires Valid(image) && A.GraphOk(Whole(image)) && A.Sorted(Whole(image), order)
    ensures Table(image, POOL, DepthTable(Whole(image), order, cap), cap)
    ensures BranchTable(image, DepthTable(Whole(image), order, cap), cap)
  {
    hide U.Peak, U.PeakSums;
    var g := Whole(image);
    var need := DepthTable(g, order, cap);
    forall n | 0 <= n < |image.nodes| && need(n) <= cap ensures Covered(POOL, need, image.nodes[n], need(n)) {
      forall j | 0 <= j < 4 && U.Edges(image.nodes[n])[j].Some? && !U.Edges(image.nodes[n])[j].value.fork
        ensures U.Edges(image.nodes[n])[j].value.frames + need(U.Edges(image.nodes[n])[j].value.entry) <= need(n)
      {
        PeakIncludes(g, order, n, j);
      }
      EdgesCover(POOL, need, image.nodes[n], need(n));
    }
    forall n | 0 <= n < |image.nodes| && need(n) <= cap && image.nodes[n].kind.Fork?
      ensures need(image.nodes[n].kind.left) <= cap && need(image.nodes[n].kind.right) <= cap
    {
      PeakIncludes(g, order, n, 0);
      PeakIncludes(g, order, n, 1);
    }
  }

  /** Fork-free reachable code needs one task, cycles or not. */
  ghost function LoneTable(g: A.Graph): nat -> nat
    requires A.GraphOk(g)
  {
    n => if A.Reachable(g, n) then 1 else 2
  }

  lemma ReachableStep(g: A.Graph, v: nat, k: nat)
    requires A.GraphOk(g) && A.Reachable(g, v) && v < |g.nodes| && k < 4 && A.Target(g, v, k).Some?
    ensures A.Reachable(g, A.Target(g, v, k).value)
  {
    var w := A.Target(g, v, k).value;
    var p :| A.IsWalk(g, p) && p[|p| - 1] == v;
    var q := p + [w];
    assert A.HasEdge(g, v, w);
    forall i | 0 <= i < |q| - 1 ensures A.HasEdge(g, q[i], q[i + 1]) {
      if i < |p| - 1 {
        assert q[i] == p[i] && q[i + 1] == p[i + 1];
      }
    }
    assert A.IsWalk(g, q) && q[|q| - 1] == w;
  }

  lemma LoneTableOk(image: Image)
    requires Valid(image) && A.GraphOk(Whole(image)) && !A.ForkReachable(Whole(image))
    ensures Table(image, TASKS, LoneTable(Whole(image)), 1) && ForkTable(image, TASKS, LoneTable(Whole(image)), 1)
  {
    hide A.Reachable;
    var g := Whole(image);
    var need := LoneTable(g);
    forall n | 0 <= n < |image.nodes| && need(n) <= 1 ensures Covered(TASKS, need, image.nodes[n], need(n)) {
      forall j | 0 <= j < 4 && U.Edges(image.nodes[n])[j].Some? && !U.Edges(image.nodes[n])[j].value.fork
        ensures need(U.Edges(image.nodes[n])[j].value.entry) <= need(n)
      {
        ReachableStep(g, n, j);
      }
      EdgesCover(TASKS, need, image.nodes[n], need(n));
    }
    assert forall n :: A.IsFork(g, n) ==> !A.Reachable(g, n);
    assert forall n :: 0 <= n < |image.nodes| && image.nodes[n].kind.Fork? ==> A.IsFork(g, n);
  }

  // ----- soundness -----

  /** Whenever the analysis reports a task bound, no run with that many task slots ever
      fails a fork, whatever the host answers, cancels or resumes, and in whatever order. */
  lemma ReportedTasksSuffice(
    s: Setting, l: Launch, states: seq<Machine>, moves: seq<Move>, k: nat, r: A.Requirements)
    requires Launched(s, l, states, moves) && k < |moves| && AppendsNothing(moves)
    requires A.Reports(Whole(s.image), r) && r.tasks.Some? && r.tasks.value <= l.tasks
    ensures var a := Acting(s, states[k]); a.Some? ==> Raised(s, a.value.0, a.value.1) != Some(Tasks)
  {
    hide Acting, Raised, U.Peak, AppendsNothing, Launched, A.Sorted, A.CycleReachable, A.ForkReachable;
    ImageAdmitted(s, l, states, moves);
    var g := Whole(s.image);
    WholeOk(s.image);
    if A.CycleReachable(g) {
      LoneTableOk(s.image);
      EntryReachable(g);
      SlotsNeverRunOut(s, l, states, moves, k, LoneTable(g), 1);
    } else {
      var order :| A.Sorted(g, order) && g.entry in order;
      TasksTableOk(s.image, order, r.tasks.value);
      SlotsNeverRunOut(s, l, states, moves, k, TasksTable(g, order, r.tasks.value), r.tasks.value);
    }
  }

  lemma ImageAdmitted(s: Setting, l: Launch, states: seq<Machine>, moves: seq<Move>)
    requires Launched(s, l, states, moves)
    ensures Valid(s.image) && l.tasks > 0
  {
  }

  lemma EntryReachable(g: A.Graph)
    requires A.GraphOk(g)
    ensures A.Reachable(g, g.entry)
  {
    assert A.IsWalk(g, [g.entry]) && [g.entry][|[g.entry]| - 1] == g.entry;
  }

  /** Whenever the analysis reports frame bounds, no run with that many pool frames and that
      stack depth ever runs out of frames, in a transition or in a response. */
  lemma ReportedFramesSuffice(
    s: Setting, l: Launch, states: seq<Machine>, moves: seq<Move>, k: nat, r: A.Requirements)
    requires Launched(s, l, states, moves) && k < |moves| && AppendsNothing(moves)
    requires A.Reports(Whole(s.image), r)
    requires r.frames.Some? && r.frames.value <= l.capacity
    requires r.framesPerTask.Some? && r.framesPerTask.value <= l.limits.framesPerTask
    ensures var a := Acting(s, states[k]); a.Some? ==> Raised(s, a.value.0, a.value.1) != Some(Frames)
    ensures moves[k].Respond? ==>
      Deliver(s, states[k], moves[k].task, moves[k].ticket, moves[k].event).refusal != Some(Frames)
  {
    hide Acting, Raised, Deliver, U.Peak, AppendsNothing, Launched, A.Sorted, A.CycleReachable, A.ForkReachable;
    var g := Whole(s.image);
    ImageAdmitted(s, l, states, moves);
    WholeOk(s.image);
    var order :| A.Sorted(g, order) && g.entry in order;
    PoolTableOk(s.image, order, r.frames.value);
    DepthTableOk(s.image, order, r.framesPerTask.value);
    FramesNeverRunOut(s, l, states, moves, k, PoolTable(g, order, r.frames.value), r.frames.value,
                      DepthTable(g, order, r.framesPerTask.value), r.framesPerTask.value);
  }
}
