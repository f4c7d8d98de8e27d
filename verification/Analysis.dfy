/** The iterative depth-first traversal that computes an image's storage bounds, using
    its scratch slots as the work stack. Models crates/xolotl-core/src/analysis.rs. */
module Analysis {
  import opened Program
  import opened Usage
  import opened Indices

  datatype Visit = Unseen | Active | Complete

  datatype Slot = Slot(visit: Visit, parent: Option<nat>, edge: nat, usage: Usage)

  const BLANK: Slot := Slot(Unseen, None, 0, FRESH)

  datatype Requirements = Requirements(tasks: Option<nat>, framesPerTask: Option<nat>, frames: Option<nat>,
      bindingsPerTask: nat)

  /** The module under analysis: its instructions, the index of the first, and its entry. */
  datatype Graph = Graph(nodes: seq<Node>, lo: nat, entry: nat)

  predicate GraphOk(g: Graph) {
    g.entry < |g.nodes| && forall v :: 0 <= v < |g.nodes| ==> EdgesIn(g.nodes[v], g.lo, |g.nodes|)
  }

  /** The instruction reached by the `k`-th edge of `v`. */
  function Target(g: Graph, v: nat, k: nat): (r: Option<nat>)
    requires GraphOk(g) && v < |g.nodes| && k < 4
    ensures r.Some? ==> r.value < |g.nodes|
  {
    var e := Edges(g.nodes[v])[k];
    if e.Some? then Some(e.value.entry - g.lo) else None
  }

  /** What a finished or unfinished instruction contributes to one that starts it. */
  function Known(slot: Slot): Usage { if slot.visit.Active? then UNKNOWN else slot.usage }

  /** The tally of the first `k` edges of `v`. */
  function Gather(g: Graph, slots: seq<Slot>, v: nat, k: nat): Tally
    requires GraphOk(g) && |slots| == |g.nodes| && v < |g.nodes| && k <= 4
  {
    if k == 0 then START
    else
      var t := Gather(g, slots, v, k - 1);
      var w := Target(g, v, k - 1);
      if w.None? then t else Absorb(t, Edges(g.nodes[v])[k - 1].value, Known(slots[w.value]))
  }

  function Combined(g: Graph, slots: seq<Slot>, v: nat): Usage
    requires GraphOk(g) && |slots| == |g.nodes| && v < |g.nodes|
  {
    Total(Gather(g, slots, v, 4))
  }

  // ----- paths and cycles -----

  predicate HasEdge(g: Graph, v: nat, w: nat)
    requires GraphOk(g)
  {
    v < |g.nodes| && exists k :: 0 <= k < 4 && Target(g, v, k) == Some(w)
  }

  /** A walk along edges starting at the entry. */
  predicate IsWalk(g: Graph, p: seq<nat>)
    requires GraphOk(g)
  {
    && |p| > 0 && p[0] == g.entry
    && (forall i :: 0 <= i < |p| ==> p[i] < |g.nodes|)
    && forall i :: 0 <= i < |p| - 1 ==> HasEdge(g, p[i], p[i + 1])
  }

  /** A walk that comes back to an instruction it has already visited. */
  ghost predicate IsCycle(g: Graph, p: seq<nat>)
    requires GraphOk(g)
  {
    IsWalk(g, p) && exists i :: 0 <= i < |p| - 1 && p[i] == p[|p| - 1]
  }

  ghost predicate CycleReachable(g: Graph)
    requires GraphOk(g)
  {
    exists p :: IsCycle(g, p)
  }

  ghost predicate Reachable(g: Graph, v: nat)
    requires GraphOk(g)
  {
    exists p :: IsWalk(g, p) && p[|p| - 1] == v
  }

  ghost predicate ForkReachable(g: Graph)
    requires GraphOk(g)
  {
    exists v :: IsFork(g, v) && Reachable(g, v)
  }

  predicate IsFork(g: Graph, v: nat) { v < |g.nodes| && g.nodes[v].kind.Fork? }

  predicate NoRepeats(p: seq<nat>) { forall i, j :: 0 <= i < j < |p| ==> p[i] != p[j] }

  // ----- the state of the traversal -----

  /** The traversal's variables, the active path it follows, and the order in which it finished instructions. */
  datatype Dfs = Dfs(slots: seq<Slot>, current: nat, cyclic: bool, forks: bool, path: seq<nat>, order: seq<nat>)

  /** The active instructions are exactly those on the path, linked by their parents and by edges. */
  predicate PathOk(g: Graph, d: Dfs)
    requires GraphOk(g) && |d.slots| == |g.nodes|
  {
    && IsWalk(g, d.path) && NoRepeats(d.path) && d.path[|d.path| - 1] == d.current
    && (forall v :: 0 <= v < |d.slots| ==> (d.slots[v].visit.Active? <==> v in d.path))
    && d.slots[g.entry].parent.None?
    && (forall i :: 0 <= i < |d.path| - 1 ==> d.slots[d.path[i + 1]].parent == Some(d.path[i]))
  }

  /** The finished instructions are exactly those in the finishing order. */
  predicate OrderOk(g: Graph, d: Dfs)
    requires |d.slots| == |g.nodes|
  {
    && (forall i :: 0 <= i < |d.order| ==> d.order[i] < |d.slots|)
    && NoRepeats(d.order)
    && (forall v :: 0 <= v < |d.slots| ==> (d.slots[v].visit.Complete? <==> v in d.order))
    && (forall v :: 0 <= v < |d.slots| ==> d.slots[v].edge <= 4 && (d.slots[v].visit.Unseen? ==> d.slots[v] == BLANK))
  }

  /** Every listed instruction only leads to instructions listed before it and holds their
      combined usage. */
  predicate Settled(g: Graph, slots: seq<Slot>, order: seq<nat>)
    requires GraphOk(g) && |slots| == |g.nodes|
    requires forall i :: 0 <= i < |order| ==> order[i] < |slots|
  {
    forall i :: 0 <= i < |order| ==>
      && (forall k :: 0 <= k < 4 && Target(g, order[i], k).Some? ==> Target(g, order[i], k).value in order[..i])
      && slots[order[i]].visit.Complete?
      && slots[order[i]].usage == Combined(g, slots, order[i])
  }

  /** Without a cycle, the edges an active instruction has tried lead to finished
      instructions, except the one leading to the next instruction on the path. */
  predicate Tried(g: Graph, d: Dfs)
    requires GraphOk(g) && |d.slots| == |g.nodes| && OrderOk(g, d) && PathOk(g, d)
  {
    forall i, k :: 0 <= i < |d.path| && 0 <= k < d.slots[d.path[i]].edge && Target(g, d.path[i], k).Some? ==>
      Target(g, d.path[i], k).value in d.order ||
      (i < |d.path| - 1 && Target(g, d.path[i], k).value == d.path[i + 1])
  }

  /** Edges already tried lead to instructions that have been seen. */
  predicate Seen(g: Graph, d: Dfs)
    requires GraphOk(g) && |d.slots| == |g.nodes| && OrderOk(g, d)
  {
    forall v, k :: 0 <= v < |d.slots| && 0 <= k < d.slots[v].edge && Target(g, v, k).Some? ==>
      !d.slots[Target(g, v, k).value].visit.Unseen?
  }

  /** Until a fork is met, no instruction left behind is a fork and each counts one task. */
  predicate ForksOk(g: Graph, d: Dfs)
    requires |d.slots| == |g.nodes|
  {
    && (d.forks ==> exists v :: 0 <= v < |d.slots| && !d.slots[v].visit.Unseen? && IsFork(g, v))
    && (!d.forks ==> forall v :: 0 <= v < |d.slots| && !d.slots[v].visit.Unseen? && v != d.current ==> !IsFork(g, v))
    && (!d.forks ==> forall v :: 0 <= v < |d.slots| && d.slots[v].visit.Complete? ==> d.slots[v].usage.tasks == Some(1))
    && (forall v :: 0 <= v < |d.slots| && d.slots[v].visit.Complete? ==> d.slots[v].edge == 4)
  }

  /** Only reachable instructions are visited. */
  ghost predicate Found(g: Graph, d: Dfs)
    requires GraphOk(g) && |d.slots| == |g.nodes|
  {
    forall v :: 0 <= v < |d.slots| && !d.slots[v].visit.Unseen? ==> Reachable(g, v)
  }

  ghost predicate DfsOk(g: Graph, d: Dfs) {
    && GraphOk(g) && |d.slots| == |g.nodes| && d.current < |g.nodes|
    && PathOk(g, d) && OrderOk(g, d) && Seen(g, d) && ForksOk(g, d) && Found(g, d)
    && (!d.cyclic ==> Settled(g, d.slots, d.order) && Tried(g, d))
    && (d.cyclic ==> CycleReachable(g))
  }

  /** Work left: edges not yet tried and instructions not yet finished. */
  function Left(slots: seq<Slot>): nat {
    if slots == [] then 0
    else
      var s := slots[|slots| - 1];
      Left(slots[..|slots| - 1]) + (if s.edge < 4 then 4 - s.edge else 0) + (if s.visit.Complete? then 0 else 1)
  }

  lemma {:induction false} LeftSet(slots: seq<Slot>, i: nat, u: Slot)
    requires i < |slots|
    ensures Left(slots[i := u]) == Left(slots)
      - (if slots[i].edge < 4 then 4 - slots[i].edge else 0) - (if slots[i].visit.Complete? then 0 else 1)
      + (if u.edge < 4 then 4 - u.edge else 0) + (if u.visit.Complete? then 0 else 1)
  {
    var n := |slots| - 1;
    if i == n {
      assert slots[i := u][..n] == slots[..n];
    } else {
      assert slots[i := u][..n] == slots[..n][i := u];
      LeftSet(slots[..n], i, u);
    }
  }

  // ----- the steps of the traversal -----

  function Begun(g: Graph): Dfs
    requires GraphOk(g)
  {
    Dfs(seq(|g.nodes|, _ => BLANK)[g.entry := BLANK.(visit := Active)], g.entry, false, false, [g.entry], [])
  }

  lemma BegunOk(g: Graph)
    requires GraphOk(g)
    ensures DfsOk(g, Begun(g))
  {
    var d := Begun(g);
    assert forall v :: 0 <= v < |d.slots| && v != g.entry ==> d.slots[v] == BLANK;
    assert IsWalk(g, [g.entry]);
    assert Reachable(g, g.entry);
  }

  /** Noting whether the current instruction is a fork. */
  function Noted(g: Graph, d: Dfs): Dfs { d.(forks := d.forks || IsFork(g, d.current)) }

  lemma NotedOk(g: Graph, d: Dfs)
    requires DfsOk(g, d)
    ensures DfsOk(g, Noted(g, d)) && (!Noted(g, d).forks ==> !IsFork(g, d.current))
  {
    assert d.current in d.path;
  }

  /** Trying the current instruction's next edge. */
  function Advanced(d: Dfs): Dfs
    requires d.current < |d.slots|
  {
    d.(slots := d.slots[d.current := d.slots[d.current].(edge := d.slots[d.current].edge + 1)])
  }

  /** The edge leads nowhere new: nowhere at all, or to a finished instruction. */
  lemma CrossOk(g: Graph, d: Dfs)
    requires DfsOk(g, d) && d.slots[d.current].edge < 4
    requires var w := Target(g, d.current, d.slots[d.current].edge); w.None? || d.slots[w.value].visit.Complete?
    ensures DfsOk(g, Advanced(d))
  {
    var a := Advanced(d);
    AdvancedFacts(g, d);
    AdvancedSeen(g, d);
    if !d.cyclic {
      assert d.current in d.path;
      SettledKept(g, d.slots, a.slots, d.order);
      AdvancedTried(g, d);
    }
    hide PathOk, OrderOk, Seen, ForksOk, Settled, Tried, Reachable;
  }

  lemma AdvancedSeen(g: Graph, d: Dfs)
    requires DfsOk(g, d) && d.slots[d.current].edge < 4 && OrderOk(g, Advanced(d))
    requires var w := Target(g, d.current, d.slots[d.current].edge); w.None? || !d.slots[w.value].visit.Unseen?
    ensures Seen(g, Advanced(d))
  {
    var a := Advanced(d);
    hide PathOk, ForksOk, Settled, Tried, CycleReachable;
    forall v, k | 0 <= v < |a.slots| && 0 <= k < a.slots[v].edge && Target(g, v, k).Some?
      ensures !a.slots[Target(g, v, k).value].visit.Unseen?
    {
      assert k < d.slots[v].edge || (v == d.current && k == d.slots[v].edge);
    }
  }

  lemma AdvancedTried(g: Graph, d: Dfs)
    requires DfsOk(g, d) && !d.cyclic && d.slots[d.current].edge < 4 && OrderOk(g, Advanced(d))
      && PathOk(g, Advanced(d))
    requires var w := Target(g, d.current, d.slots[d.current].edge); w.None? || d.slots[w.value].visit.Complete?
    ensures Tried(g, Advanced(d))
  {
    var a := Advanced(d);
    forall i, k | 0 <= i < |a.path| && 0 <= k < a.slots[a.path[i]].edge && Target(g, a.path[i], k).Some?
      ensures Target(g, a.path[i], k).value in a.order
        || (i < |a.path| - 1 && Target(g, a.path[i], k).value == a.path[i + 1])
    {
      assert k < d.slots[d.path[i]].edge || (d.path[i] == d.current && k == d.slots[d.current].edge);
    }
    hide Seen, ForksOk, Settled;
  }

  /** Moving one edge counter changes no visit, parent or usage. */
  lemma AdvancedFacts(g: Graph, d: Dfs)
    requires DfsOk(g, d) && d.slots[d.current].edge < 4
    ensures var a := Advanced(d);
      PathOk(g, a) && OrderOk(g, a) && ForksOk(g, a)
  {
    assert d.current in d.path;
  }

  /** Finished instructions keep their usage while unfinished slots change. */
  lemma SettledKept(g: Graph, slots: seq<Slot>, other: seq<Slot>, order: seq<nat>)
    requires GraphOk(g) && |slots| == |other| == |g.nodes| && (forall i :: 0 <= i < |order| ==> order[i] < |slots|)
    requires Settled(g, slots, order)
    requires forall v :: 0 <= v < |slots| && slots[v].visit.Complete? ==> other[v] == slots[v]
    ensures Settled(g, other, order)
  {
    forall i | 0 <= i < |order| ensures other[order[i]].usage == Combined(g, other, order[i]) {
      forall k | 0 <= k < 4 && Target(g, order[i], k).Some?
        ensures other[Target(g, order[i], k).value] == slots[Target(g, order[i], k).value]
      {
        var w := Target(g, order[i], k).value;
        assert w in order[..i];
      }
      GatherKept(g, slots, other, order[i], 4);
    }
  }

  lemma {:induction false} GatherKept(g: Graph, slots: seq<Slot>, other: seq<Slot>, v: nat, k: nat)
    requires GraphOk(g) && |slots| == |other| == |g.nodes| && v < |g.nodes| && k <= 4
    requires forall j :: 0 <= j < 4 && Target(g, v, j).Some? ==>
      other[Target(g, v, j).value] == slots[Target(g, v, j).value]
    ensures Gather(g, other, v, k) == Gather(g, slots, v, k)
  {
    if k > 0 {
      GatherKept(g, slots, other, v, k - 1);
    }
  }

  /** The edge leads back to an active instruction: the path and that edge form a cycle. */
  lemma BackOk(g: Graph, d: Dfs)
    requires DfsOk(g, d) && d.slots[d.current].edge < 4
    requires var w := Target(g, d.current, d.slots[d.current].edge); w.Some? && d.slots[w.value].visit.Active?
    ensures DfsOk(g, Advanced(d).(cyclic := true))
  {
    AdvancedFacts(g, d);
    AdvancedSeen(g, d);
    var w := Target(g, d.current, d.slots[d.current].edge).value;
    ActiveOnPath(g, d, w);
    hide PathOk, OrderOk, Seen, ForksOk, Settled, Tried, Reachable, CycleReachable;
    BackCycle(g, d, w);
    CyclicSame(g, Advanced(d));
  }

  lemma ActiveOnPath(g: Graph, d: Dfs, w: nat)
    requires DfsOk(g, d) && w < |d.slots| && d.slots[w].visit.Active?
    ensures w in d.path
  {
    hide OrderOk, Seen, ForksOk, Settled, Tried, Reachable, CycleReachable, Found;
  }

  /** Whether a cycle has been seen matters to no other part of the state. */
  lemma CyclicSame(g: Graph, d: Dfs)
    requires GraphOk(g) && |d.slots| == |g.nodes| && d.current < |g.nodes|
    requires PathOk(g, d) && OrderOk(g, d) && Seen(g, d) && ForksOk(g, d)
    ensures var c := d.(cyclic := true); PathOk(g, c) && OrderOk(g, c) && Seen(g, c) && ForksOk(g, c)
  {
  }

  lemma BackCycle(g: Graph, d: Dfs, w: nat)
    requires DfsOk(g, d) && w in d.path && HasEdge(g, d.current, w)
    ensures CycleReachable(g)
  {
    var p := d.path + [w];
    var i :| 0 <= i < |d.path| && d.path[i] == w;
    assert p[i] == p[|p| - 1];
    forall j | 0 <= j < |p| - 1 ensures HasEdge(g, p[j], p[j + 1]) {
      if j == |d.path| - 1 {
        assert p[j] == d.current && p[j + 1] == w;
      } else {
        assert p[j] == d.path[j] && p[j + 1] == d.path[j + 1];
      }
    }
    assert IsCycle(g, p);
  }

  /** Descending into an instruction not seen before. */
  function Descended(d: Dfs, w: nat): Dfs
    requires d.current < |d.slots| && w < |d.slots|
  {
    var a := Advanced(d);
    a.(slots := a.slots[w := a.slots[w].(visit := Active, parent := Some(d.current))],
       current := w, path := d.path + [w])
  }

  lemma DescendOk(g: Graph, d: Dfs, w: nat)
    requires DfsOk(g, d) && d.slots[d.current].edge < 4 && (d.forks || !IsFork(g, d.current))
    requires Target(g, d.current, d.slots[d.current].edge) == Some(w) && d.slots[w].visit.Unseen?
    ensures DfsOk(g, Descended(d, w))
  {
    hide PathOk, OrderOk, Seen, ForksOk, Tried, Reachable, Settled, CycleReachable;
    var n := Descended(d, w);
    UnseenElsewhere(g, d, w);
    CurrentActive(g, d);
    DescendPath(g, d, w);
    DescendRest(g, d, w);
    if !d.cyclic {
      SettledDescends(g, d, w);
      DescendTried(g, d, w);
    }
    DescendReaches(g, d, w);
  }

  lemma UnseenElsewhere(g: Graph, d: Dfs, w: nat)
    requires DfsOk(g, d) && w < |d.slots| && d.slots[w].visit.Unseen?
    ensures w !in d.path && w !in d.order
  {
    hide Seen, ForksOk, Settled, Tried, CycleReachable, Found, IsWalk, NoRepeats;
  }

  lemma SettledDescends(g: Graph, d: Dfs, w: nat)
    requires DfsOk(g, d) && !d.cyclic && w < |d.slots| && w !in d.order && d.current !in d.order
      && d.current < |d.slots|
    ensures Settled(g, Descended(d, w).slots, d.order)
  {
    hide PathOk, Seen, ForksOk, Tried, CycleReachable, Found;
    SettledKept(g, d.slots, Descended(d, w).slots, d.order);
  }

  lemma DescendReaches(g: Graph, d: Dfs, w: nat)
    requires GraphOk(g) && |d.slots| == |g.nodes| && d.current < |d.slots| && w < |d.slots|
    requires PathOk(g, Descended(d, w)) && Found(g, d) && !d.slots[d.current].visit.Unseen?
    ensures Found(g, Descended(d, w))
  {
    var n := Descended(d, w);
    assert Reachable(g, w) by {
      assert n.path[|n.path| - 1] == w;
    }
    hide PathOk, Reachable;
  }

  lemma WalkExtends(g: Graph, p: seq<nat>, w: nat)
    requires GraphOk(g) && IsWalk(g, p) && HasEdge(g, p[|p| - 1], w) && w < |g.nodes| && w !in p && NoRepeats(p)
    ensures IsWalk(g, p + [w]) && NoRepeats(p + [w])
  {
    var q := p + [w];
    forall i | 0 <= i < |q| - 1 ensures HasEdge(g, q[i], q[i + 1]) {
      if i < |p| - 1 {
        assert q[i] == p[i] && q[i + 1] == p[i + 1];
      }
    }
  }

  lemma DescendPath(g: Graph, d: Dfs, w: nat)
    requires DfsOk(g, d) && d.slots[d.current].edge < 4
    requires Target(g, d.current, d.slots[d.current].edge) == Some(w) && d.slots[w].visit.Unseen?
    requires d.current in d.path && w !in d.path && w !in d.order
    ensures PathOk(g, Descended(d, w)) && OrderOk(g, Descended(d, w))
  {
    var n := Descended(d, w);
    hide Seen, ForksOk, Settled, Tried, CycleReachable;
    assert HasEdge(g, d.current, w);
    WalkExtends(g, d.path, w);
    DescendLinks(g, d, w);
    DescendOrder(g, d, w);
    hide IsWalk, HasEdge, NoRepeats, OrderOk, Target;
    assert g.entry in d.path;
  }

  lemma DescendLinks(g: Graph, d: Dfs, w: nat)
    requires DfsOk(g, d) && w < |d.slots| && w !in d.path && d.current in d.path
    ensures var n := Descended(d, w);
      forall i :: 0 <= i < |n.path| - 1 ==> n.slots[n.path[i + 1]].parent == Some(n.path[i])
  {
    var n := Descended(d, w);
    hide Seen, ForksOk, Settled, Tried, CycleReachable, OrderOk, HasEdge, NoRepeats;
    forall i | 0 <= i < |n.path| - 1 ensures n.slots[n.path[i + 1]].parent == Some(n.path[i]) {
      if i < |d.path| - 1 {
        assert n.path[i] == d.path[i] && n.path[i + 1] == d.path[i + 1] && d.path[i + 1] in d.path;
      } else {
        assert n.path[i] == d.current && n.path[i + 1] == w;
      }
    }
  }

  lemma DescendOrder(g: Graph, d: Dfs, w: nat)
    requires DfsOk(g, d) && w < |d.slots| && w !in d.order && d.current in d.path && d.slots[d.current].edge < 4
      && d.slots[w].visit.Unseen?
    ensures OrderOk(g, Descended(d, w))
  {
    hide Seen, ForksOk, Settled, Tried, CycleReachable, IsWalk, NoRepeats;
  }

  lemma DescendRest(g: Graph, d: Dfs, w: nat)
    requires DfsOk(g, d) && d.slots[d.current].edge < 4 && (d.forks || !IsFork(g, d.current))
    requires Target(g, d.current, d.slots[d.current].edge) == Some(w) && d.slots[w].visit.Unseen?
    requires d.current in d.path && OrderOk(g, Descended(d, w))
    ensures Seen(g, Descended(d, w)) && ForksOk(g, Descended(d, w))
  {
    DescendSeen(g, d, w);
    DescendForks(g, d, w);
    hide PathOk, Settled, Tried, Seen, ForksOk, OrderOk;
  }

  lemma DescendSeen(g: Graph, d: Dfs, w: nat)
    requires DfsOk(g, d) && d.slots[d.current].edge < 4
    requires Target(g, d.current, d.slots[d.current].edge) == Some(w) && d.slots[w].visit.Unseen?
    requires OrderOk(g, Descended(d, w))
    ensures Seen(g, Descended(d, w))
  {
    var n := Descended(d, w);
    hide PathOk, Settled, Tried, CycleReachable, ForksOk;
    forall v, k | 0 <= v < |n.slots| && 0 <= k < n.slots[v].edge && Target(g, v, k).Some?
      ensures !n.slots[Target(g, v, k).value].visit.Unseen?
    {
      assert k < d.slots[v].edge || (v == d.current && k == d.slots[v].edge);
    }
  }

  lemma DescendForks(g: Graph, d: Dfs, w: nat)
    requires |d.slots| == |g.nodes| && d.current < |g.nodes| && ForksOk(g, d) && (d.forks || !IsFork(g, d.current))
    requires w < |d.slots| && d.slots[w].visit.Unseen? && d.slots[d.current].visit.Active?
    ensures ForksOk(g, Descended(d, w))
  {
    var n := Descended(d, w);
    if d.forks {
      var v :| 0 <= v < |d.slots| && !d.slots[v].visit.Unseen? && IsFork(g, v);
      assert !n.slots[v].visit.Unseen?;
    }
  }

  lemma DescendTried(g: Graph, d: Dfs, w: nat)
    requires DfsOk(g, d) && !d.cyclic && d.slots[d.current].edge < 4
    requires Target(g, d.current, d.slots[d.current].edge) == Some(w) && d.slots[w].visit.Unseen?
    requires PathOk(g, Descended(d, w)) && OrderOk(g, Descended(d, w))
    ensures Tried(g, Descended(d, w))
  {
    var n := Descended(d, w);
    hide Seen, ForksOk, Settled;
    assert n.slots[w].edge == 0;
    forall i, k | 0 <= i < |n.path| && 0 <= k < n.slots[n.path[i]].edge && Target(g, n.path[i], k).Some?
      ensures Target(g, n.path[i], k).value in n.order
        || (i < |n.path| - 1 && Target(g, n.path[i], k).value == n.path[i + 1])
    {
      if i < |n.path| - 1 {
        assert n.path[i] == d.path[i];
        assert k < d.slots[d.path[i]].edge || (d.path[i] == d.current && k == d.slots[d.current].edge);
      }
    }
  }

  /** The slots once the current instruction is finished with its combined usage. */
  function Finished(g: Graph, d: Dfs): seq<Slot>
    requires GraphOk(g) && |d.slots| == |g.nodes| && d.current < |g.nodes|
  {
    d.slots[d.current := d.slots[d.current].(usage := Combined(g, d.slots, d.current), visit := Complete)]
  }

  /** Without a cycle, a finished instruction joins the settled ones. */
  lemma FinishSettles(g: Graph, d: Dfs)
    requires DfsOk(g, d) && !d.cyclic && d.slots[d.current].edge == 4
    ensures Settled(g, Finished(g, d), d.order + [d.current])
  {
    var other := Finished(g, d);
    var order := d.order + [d.current];
    var last := |d.path| - 1;
    assert d.current in d.path && d.current !in d.order;
    SettledKept(g, d.slots, other, d.order);
    forall k | 0 <= k < 4 && Target(g, d.current, k).Some? ensures Target(g, d.current, k).value in d.order {
      assert d.path[last] == d.current && k < d.slots[d.path[last]].edge;
    }
    GatherKept(g, d.slots, other, d.current, 4);
    hide PathOk, Seen, ForksOk, Tried;
    forall i | 0 <= i < |order|
      ensures (forall k :: 0 <= k < 4 && Target(g, order[i], k).Some? ==> Target(g, order[i], k).value in order[..i])
      ensures other[order[i]].visit.Complete? && other[order[i]].usage == Combined(g, other, order[i])
    {
      if i < |d.order| {
        assert order[i] == d.order[i] && order[..i] == d.order[..i];
      } else {
        assert order[..i] == d.order;
      }
    }
  }

  /** Until a fork is met, a finished instruction counts one task. */
  lemma {:induction false} FinishCountsOne(g: Graph, slots: seq<Slot>, v: nat, k: nat)
    requires GraphOk(g) && |slots| == |g.nodes| && v < |g.nodes| && !IsFork(g, v) && k <= 4
    requires forall j :: 0 <= j < 4 && Target(g, v, j).Some? ==> Known(slots[Target(g, v, j).value]).tasks == Some(1)
    ensures var t := Gather(g, slots, v, k); t.usage.tasks == Some(1) && t.forkTasks == Some(1)
  {
    if k > 0 {
      FinishCountsOne(g, slots, v, k - 1);
    }
  }

  lemma KnownCountsOne(g: Graph, d: Dfs)
    requires DfsOk(g, d) && d.slots[d.current].edge == 4 && !d.forks
    ensures forall j :: 0 <= j < 4 && Target(g, d.current, j).Some? ==>
      Known(d.slots[Target(g, d.current, j).value]).tasks == Some(1)
  {
    hide PathOk, Settled, Tried, OrderOk, CycleReachable;
  }

  lemma FinishForks(g: Graph, d: Dfs, next: nat)
    requires DfsOk(g, d) && d.slots[d.current].edge == 4 && (d.forks || !IsFork(g, d.current))
    ensures ForksOk(g, d.(slots := Finished(g, d), current := next))
  {
    if d.forks {
      var v :| 0 <= v < |d.slots| && !d.slots[v].visit.Unseen? && IsFork(g, v);
      assert !Finished(g, d)[v].visit.Unseen?;
    } else {
      KnownCountsOne(g, d);
      FinishCountsOne(g, d.slots, d.current, 4);
    }
    hide PathOk, Settled, Tried, OrderOk, CycleReachable, Gather;
  }

  /** Going back up the path. */
  function Returned(g: Graph, d: Dfs): Dfs
    requires GraphOk(g) && |d.slots| == |g.nodes| && d.current < |g.nodes| && |d.path| > 1
  {
    d.(slots := Finished(g, d), current := d.path[|d.path| - 2], path := d.path[..|d.path| - 1],
       order := d.order + [d.current])
  }

  lemma ReturnOk(g: Graph, d: Dfs)
    requires DfsOk(g, d) && d.slots[d.current].edge == 4 && (d.forks || !IsFork(g, d.current)) && |d.path| > 1
    ensures DfsOk(g, Returned(g, d)) && d.slots[d.current].parent == Some(Returned(g, d).current)
  {
    hide PathOk, OrderOk, Seen, Settled, Tried, Combined, Found, ForksOk, CycleReachable;
    var n := Returned(g, d);
    CurrentActive(g, d);
    ReturnPath(g, d);
    FinishForks(g, d, n.current);
    ForksMove(g, d.(slots := Finished(g, d), current := n.current), n);
    ReturnSeen(g, d);
    if !d.cyclic {
      FinishSettles(g, d);
      ReturnTried(g, d);
    }
    ReturnFound(g, d);
  }

  lemma ForksMove(g: Graph, a: Dfs, b: Dfs)
    requires |a.slots| == |g.nodes| && ForksOk(g, a) && b.slots == a.slots && b.current == a.current
      && b.forks == a.forks
    ensures ForksOk(g, b)
  {
  }

  lemma ReturnFound(g: Graph, d: Dfs)
    requires DfsOk(g, d) && |d.path| > 1 && d.current in d.path
    ensures Found(g, Returned(g, d))
  {
    hide OrderOk, Seen, Settled, Tried, Combined, Reachable, ForksOk, CycleReachable;
  }

  lemma WalkShortens(g: Graph, p: seq<nat>)
    requires GraphOk(g) && IsWalk(g, p) && NoRepeats(p) && |p| > 1
    ensures IsWalk(g, p[..|p| - 1]) && NoRepeats(p[..|p| - 1])
    ensures p[|p| - 1] !in p[..|p| - 1]
  {
  }

  lemma ReturnPath(g: Graph, d: Dfs)
    requires DfsOk(g, d) && d.slots[d.current].edge == 4 && |d.path| > 1
    ensures PathOk(g, Returned(g, d)) && OrderOk(g, Returned(g, d))
    ensures d.slots[d.current].parent == Some(Returned(g, d).current) && Returned(g, d).current < |g.nodes|
  {
    hide PathOk, OrderOk, Seen, ForksOk, Settled, Tried, CycleReachable, Combined, Found, Finished;
    CurrentActive(g, d);
    ReturnOrder(g, d);
    ReturnLinks(g, d);
  }

  lemma CurrentActive(g: Graph, d: Dfs)
    requires DfsOk(g, d)
    ensures d.current in d.path && d.current !in d.order && d.slots[d.current].visit.Active?
  {
    hide Seen, ForksOk, Settled, Tried, CycleReachable, Found, HasEdge, NoRepeats;
    assert d.path[|d.path| - 1] in d.path;
  }

  lemma ReturnLinks(g: Graph, d: Dfs)
    requires GraphOk(g) && |d.slots| == |g.nodes| && d.current < |g.nodes| && PathOk(g, d) && |d.path| > 1
    ensures PathOk(g, Returned(g, d)) && d.slots[d.current].parent == Some(Returned(g, d).current)
    ensures Returned(g, d).current < |g.nodes|
  {
    hide HasEdge, Combined;
    var n, last := Returned(g, d), |d.path| - 1;
    WalkShortens(g, d.path);
    assert d.path == n.path + [d.current] && d.path[0] == g.entry;
    assert d.slots[d.path[last - 1 + 1]].parent == Some(d.path[last - 1]);
    hide NoRepeats, IsWalk;
    forall i | 0 <= i < |n.path| - 1 ensures n.slots[n.path[i + 1]].parent == Some(n.path[i]) {
      assert n.path[i] == d.path[i] && n.path[i + 1] == d.path[i + 1];
    }
  }

  lemma ReturnOrder(g: Graph, d: Dfs)
    requires DfsOk(g, d) && d.slots[d.current].edge == 4 && |d.path| > 1 && d.current in d.path && d.current !in d.order
    ensures OrderOk(g, Returned(g, d))
  {
    hide Seen, ForksOk, Settled, Tried, CycleReachable, Combined, IsWalk, Found;
    var n := Returned(g, d);
    forall v | 0 <= v < |n.slots| ensures n.slots[v].visit.Complete? <==> v in n.order {
      assert v in n.order <==> v in d.order || v == d.current;
    }
  }

  lemma ReturnSeen(g: Graph, d: Dfs)
    requires DfsOk(g, d) && |d.path| > 1 && OrderOk(g, Returned(g, d))
    ensures Seen(g, Returned(g, d))
  {
    hide PathOk, ForksOk, Settled, Tried, CycleReachable, Combined, Found;
    var n := Returned(g, d);
    forall v, k | 0 <= v < |n.slots| && 0 <= k < n.slots[v].edge && Target(g, v, k).Some?
      ensures !n.slots[Target(g, v, k).value].visit.Unseen?
    {
      assert k < d.slots[v].edge;
    }
  }

  lemma ReturnTried(g: Graph, d: Dfs)
    requires DfsOk(g, d) && !d.cyclic && d.slots[d.current].edge == 4 && |d.path| > 1
    requires PathOk(g, Returned(g, d)) && OrderOk(g, Returned(g, d))
    ensures Tried(g, Returned(g, d))
  {
    var n := Returned(g, d);
    hide Seen, ForksOk, Settled, Combined, Found;
    forall i, k | 0 <= i < |n.path| && 0 <= k < n.slots[n.path[i]].edge && Target(g, n.path[i], k).Some?
      ensures Target(g, n.path[i], k).value in n.order
        || (i < |n.path| - 1 && Target(g, n.path[i], k).value == n.path[i + 1])
    {
      assert n.path[i] == d.path[i] && n.slots[d.path[i]].edge == d.slots[d.path[i]].edge;
      assert Target(g, d.path[i], k).value in d.order
        || (i < |d.path| - 1 && Target(g, d.path[i], k).value == d.path[i + 1]);
      if i == |n.path| - 1 {
        assert d.path[i + 1] == d.current;
      }
    }
  }

  // ----- what a finished traversal knows -----

  /** Instructions listed after everything they may start. */
  predicate Sorted(g: Graph, order: seq<nat>)
    requires GraphOk(g)
  {
    && NoRepeats(order)
    && (forall i :: 0 <= i < |order| ==> order[i] < |g.nodes|)
    && forall i, k :: 0 <= i < |order| && 0 <= k < 4 && Target(g, order[i], k).Some? ==>
         Target(g, order[i], k).value in order[..i]
  }

  /** Along edges, positions in a sorted list only go down. */
  lemma {:induction false} WalkDescends(g: Graph, order: seq<nat>, p: seq<nat>, i: nat, j: nat, at: nat)
    requires GraphOk(g) && Sorted(g, order) && IsWalk(g, p) && i < j < |p|
    requires at < |order| && order[at] == p[i]
    ensures p[j] in order[..at]
    decreases j - i
  {
    assert HasEdge(g, p[i], p[i + 1]);
    var k :| 0 <= k < 4 && Target(g, p[i], k) == Some(p[i + 1]);
    assert p[i + 1] in order[..at];
    if i + 1 < j {
      var next :| 0 <= next < at && order[next] == p[i + 1];
      WalkDescends(g, order, p, i + 1, j, next);
      assert order[..next] <= order[..at];
    }
  }

  /** Sorted instructions that include the entry rule out a reachable cycle. */
  lemma SortedAcyclic(g: Graph, order: seq<nat>)
    requires GraphOk(g) && Sorted(g, order) && g.entry in order
    ensures !CycleReachable(g)
  {
    forall p | IsCycle(g, p) ensures false {
      var i :| 0 <= i < |p| - 1 && p[i] == p[|p| - 1];
      var at :| 0 <= at < |order| && order[at] == g.entry;
      if i > 0 {
        WalkDescends(g, order, p, 0, i, at);
        assert p[i] in order;
      }
      var here :| 0 <= here < |order| && order[here] == p[i];
      WalkDescends(g, order, p, i, |p| - 1, here);
    }
  }

  /** A sorted list is never longer than the module. */
  lemma {:induction false} SortedShort(order: seq<nat>, n: nat)
    requires NoRepeats(order) && forall i :: 0 <= i < |order| ==> order[i] < n
    ensures |order| <= n
  {
    var all := Below(n);
    var listed := set i | 0 <= i < |order| :: order[i];
    ListedSize(order, listed);
    assert listed <= all;
    SubsetSize(listed, all);
  }

  lemma {:induction false} ListedSize(order: seq<nat>, listed: set<nat>)
    requires NoRepeats(order) && listed == set i | 0 <= i < |order| :: order[i]
    ensures |listed| == |order|
  {
    if order == [] {
      assert listed == {};
    } else {
      var n := |order| - 1;
      var rest := set i | 0 <= i < n :: order[..n][i];
      ListedSize(order[..n], rest);
      assert listed == rest + {order[n]};
    }
  }

  // ----- the recursive meaning of usage -----

  /** Expanding a sorted instruction deeper than its position adds nothing. */
  lemma {:induction false} PeakStable(g: Graph, order: seq<nat>, i: nat, a: nat, b: nat)
    requires GraphOk(g) && Sorted(g, order) && i < |order| && i < a && i < b
    ensures Peak(g.nodes, g.lo, order[i], a) == Peak(g.nodes, g.lo, order[i], b)
    decreases i, 5
  {
    PeakSumsStable(g, order, i, a, b, 4);
  }

  lemma {:induction false} PeakSumsStable(g: Graph, order: seq<nat>, i: nat, a: nat, b: nat, k: nat)
    requires GraphOk(g) && Sorted(g, order) && i < |order| && i < a && i < b && k <= 4
    ensures PeakSums(g.nodes, g.lo, order[i], a, k) == PeakSums(g.nodes, g.lo, order[i], b, k)
    decreases i, k
  {
    if k > 0 {
      PeakSumsStable(g, order, i, a, b, k - 1);
      var w := Target(g, order[i], k - 1);
      if w.Some? {
        var j :| 0 <= j < i && order[j] == w.value;
        PeakStable(g, order, j, a - 1, b - 1);
      }
    }
  }

  /** Settled usage is the recursive peak, in overflow-checked arithmetic. */
  lemma {:induction false} SettledIsPeak(g: Graph, slots: seq<Slot>, order: seq<nat>, i: nat, depth: nat)
    requires GraphOk(g) && |slots| == |g.nodes| && (forall j :: 0 <= j < |order| ==> order[j] < |slots|)
    requires Settled(g, slots, order) && i < |order| && i < depth
    ensures slots[order[i]].usage == CheckedNeed(Peak(g.nodes, g.lo, order[i], depth))
    decreases i, 5
  {
    GatherIsPeak(g, slots, order, i, depth, 4);
  }

  lemma {:induction false} GatherIsPeak(g: Graph, slots: seq<Slot>, order: seq<nat>, i: nat, depth: nat, k: nat)
    requires GraphOk(g) && |slots| == |g.nodes| && (forall j :: 0 <= j < |order| ==> order[j] < |slots|)
    requires Settled(g, slots, order) && i < |order| && i < depth && k <= 4
    ensures Gather(g, slots, order[i], k) == CheckedSums(PeakSums(g.nodes, g.lo, order[i], depth, k))
    decreases i, k
  {
    hide Gather, PeakSums, CheckedNeed, CheckedSums, Peak, Combined, Settled;
    if k == 0 {
      GatherNone(g, slots, order[i], depth);
    } else {
      GatherIsPeak(g, slots, order, i, depth, k - 1);
      if Target(g, order[i], k - 1).Some? {
        var j := SettledChild(g, slots, order, i, k - 1);
        SettledIsPeak(g, slots, order, j, depth - 1);
      }
      GatherPeakStep(g, slots, order[i], depth, k);
    }
  }

  lemma GatherNone(g: Graph, slots: seq<Slot>, v: nat, depth: nat)
    requires GraphOk(g) && |slots| == |g.nodes| && v < |g.nodes| && 0 < depth
    ensures Gather(g, slots, v, 0) == CheckedSums(PeakSums(g.nodes, g.lo, v, depth, 0))
  {
  }

  lemma SettledChild(g: Graph, slots: seq<Slot>, order: seq<nat>, i: nat, k: nat) returns (j: nat)
    requires GraphOk(g) && |slots| == |g.nodes| && (forall j :: 0 <= j < |order| ==> order[j] < |slots|)
    requires Settled(g, slots, order) && i < |order| && k < 4 && Target(g, order[i], k).Some?
    ensures j < i && Target(g, order[i], k) == Some(order[j]) && slots[order[j]].visit.Complete?
  {
    hide Combined;
    var w := Target(g, order[i], k).value;
    assert w in order[..i];
    j :| 0 <= j < i && order[j] == w;
  }

  lemma GatherPeakStep(g: Graph, slots: seq<Slot>, v: nat, depth: nat, k: nat)
    requires GraphOk(g) && |slots| == |g.nodes| && v < |g.nodes| && 0 < k <= 4 && 0 < depth
    requires Gather(g, slots, v, k - 1) == CheckedSums(PeakSums(g.nodes, g.lo, v, depth, k - 1))
    requires var w := Target(g, v, k - 1);
      w.Some? ==> Known(slots[w.value]) == CheckedNeed(Peak(g.nodes, g.lo, w.value, depth - 1))
    ensures Gather(g, slots, v, k) == CheckedSums(PeakSums(g.nodes, g.lo, v, depth, k))
  {
    hide Gather, PeakSums, Absorb, Include, CheckedNeed, CheckedSums, Peak;
    var e := Edges(g.nodes[v])[k - 1];
    if e.Some? {
      SmallEdge(g.nodes[v], k - 1);
      AbsorbChecked(PeakSums(g.nodes, g.lo, v, depth, k - 1), e.value,
        Peak(g.nodes, g.lo, e.value.entry - g.lo, depth - 1));
    }
    GatherStep(g, slots, v, k);
    PeakStep(g, v, depth, k);
  }

  lemma GatherStep(g: Graph, slots: seq<Slot>, v: nat, k: nat)
    requires GraphOk(g) && |slots| == |g.nodes| && v < |g.nodes| && 0 < k <= 4
    ensures var w := Target(g, v, k - 1);
      Gather(g, slots, v, k) ==
        if w.None? then Gather(g, slots, v, k - 1)
        else Absorb(Gather(g, slots, v, k - 1), Edges(g.nodes[v])[k - 1].value, Known(slots[w.value]))
  {
  }

  lemma PeakStep(g: Graph, v: nat, depth: nat, k: nat)
    requires GraphOk(g) && v < |g.nodes| && 0 < depth && 0 < k <= 4
    ensures var w := Target(g, v, k - 1);
      var t := PeakSums(g.nodes, g.lo, v, depth, k - 1);
      PeakSums(g.nodes, g.lo, v, depth, k) ==
        if w.None? then t
        else Include(t, Edges(g.nodes[v])[k - 1].value, Peak(g.nodes, g.lo, w.value, depth - 1))
  {
  }

  lemma SmallEdge(node: Node, k: nat)
    requires k < 4
    ensures Edges(node)[k].Some? ==> Edges(node)[k].value.frames <= 2
  {
  }

  // ----- the end of the traversal -----

  /** The only active instruction left is the entry, and all its edges have been tried. */
  ghost predicate Ending(g: Graph, d: Dfs) {
    DfsOk(g, d) && |d.path| == 1 && d.slots[d.current].edge == 4 && (d.forks || !IsFork(g, d.current))
  }

  lemma {:induction false} WalkVisited(g: Graph, d: Dfs, p: seq<nat>, i: nat)
    requires Ending(g, d) && IsWalk(g, p) && i < |p|
    ensures !d.slots[p[i]].visit.Unseen?
  {
    assert d.path[0] in d.path;
    if i > 0 {
      WalkVisited(g, d, p, i - 1);
      assert HasEdge(g, p[i - 1], p[i - 1 + 1]);
      var k :| 0 <= k < 4 && Target(g, p[i - 1], k) == Some(p[i]);
      EndingEdges(g, d, p[i - 1]);
    }
  }

  lemma EndingEdges(g: Graph, d: Dfs, v: nat)
    requires Ending(g, d) && v < |d.slots| && !d.slots[v].visit.Unseen?
    ensures d.slots[v].edge == 4
  {
    if d.slots[v].visit.Active? {
      assert v in d.path;
    }
  }

  lemma EndingForks(g: Graph, d: Dfs)
    requires Ending(g, d)
    ensures d.forks <==> ForkReachable(g)
  {
    if d.forks {
      var v :| 0 <= v < |d.slots| && !d.slots[v].visit.Unseen? && IsFork(g, v);
      assert Reachable(g, v);
    } else {
      forall v | IsFork(g, v) && Reachable(g, v) ensures false {
        var p :| IsWalk(g, p) && p[|p| - 1] == v;
        WalkVisited(g, d, p, |p| - 1);
      }
    }
  }

  /** Without a cycle the finishing order, ended by the entry, is sorted. */
  lemma EndingSorted(g: Graph, d: Dfs)
    requires Ending(g, d) && !d.cyclic
    ensures Sorted(g, d.order + [d.current]) && Settled(g, Finished(g, d), d.order + [d.current])
      && d.current == g.entry
  {
    FinishSettles(g, d);
    assert d.current in d.path;
    hide Tried, Seen, ForksOk, Found;
  }

  lemma EndingCycle(g: Graph, d: Dfs)
    requires Ending(g, d)
    ensures d.cyclic <==> CycleReachable(g)
  {
    if !d.cyclic {
      EndingSorted(g, d);
      SortedAcyclic(g, d.order + [d.current]);
    }
  }

  lemma EndingUsage(g: Graph, d: Dfs)
    requires Ending(g, d)
    ensures !d.cyclic ==> Combined(g, d.slots, d.current) == CheckedNeed(Peak(g.nodes, g.lo, g.entry, |g.nodes|))
    ensures !d.forks ==> Combined(g, d.slots, d.current).tasks == Some(1)
  {
    if !d.cyclic {
      EndingSorted(g, d);
      var order := d.order + [d.current];
      SortedShort(order, |g.nodes|);
      SettledIsPeak(g, Finished(g, d), order, |d.order|, |g.nodes|);
    }
    if !d.forks {
      KnownCountsOne(g, d);
      FinishCountsOne(g, d.slots, d.current, 4);
    }
  }

  /** What the analysis of a module must report: the recursive peak of its entry, where no
      cycle is reachable; otherwise no frame bound, and a task bound only without forks. */
  ghost predicate Reports(g: Graph, r: Requirements) {
    && GraphOk(g)
    && (CycleReachable(g) ==>
          && r.framesPerTask.None? && r.frames.None?
          && r.tasks == (if ForkReachable(g) then None else Some(1)))
    && (!CycleReachable(g) ==>
          var u := Peak(g.nodes, g.lo, g.entry, |g.nodes|);
          && r.tasks == Checked(u.tasks) && r.frames == Checked(u.frames)
          && r.framesPerTask == Checked(Max(u.own, u.child))
          && exists order :: Sorted(g, order) && g.entry in order)
  }

  lemma EndingReports(g: Graph, d: Dfs, bindings: nat)
    requires Ending(g, d)
    ensures var u := Combined(g, d.slots, d.current);
      Reports(g, Requirements(
        if d.cyclic && d.forks then None else u.tasks,
        if d.cyclic then None else Maximum(u.own, u.child),
        if d.cyclic then None else u.frames, bindings))
  {
    EndingCycle(g, d);
    EndingForks(g, d);
    EndingUsage(g, d);
    if !d.cyclic {
      EndingSorted(g, d);
      assert Sorted(g, d.order + [d.current]) && g.entry in d.order + [d.current];
    }
    hide DfsOk, Combined, Peak, Sorted, CycleReachable, ForkReachable;
  }
}
