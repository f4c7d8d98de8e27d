/** The analysis of an image as a loop over caller-owned scratch slots.
    Models `module_requirements` in crates/xolotl-core/src/analysis.rs. */
module Traversal {
  import opened Program
  import opened Usage
  import opened Analysis

  /** A module's instructions with its entry, addressed from its first instruction. */
  function ModuleGraph(image: Image, entry: nat, lo: nat, hi: nat): Graph
    requires lo <= entry < hi <= |image.nodes|
  {
    Graph(image.nodes[lo..hi], lo, entry - lo)
  }

  lemma ModuleOk(image: Image, entry: nat, lo: nat, hi: nat)
    requires lo <= entry < hi <= |image.nodes| && FirstFault(image, lo, hi, lo).None?
    ensures GraphOk(ModuleGraph(image, entry, lo, hi))
  {
    var g := ModuleGraph(image, entry, lo, hi);
    forall v | 0 <= v < |g.nodes| ensures EdgesIn(g.nodes[v], lo, |g.nodes|) {
      assert IndexFault(image.nodes[lo + v], lo, hi, image.imports, image.bindings).None?;
      EdgesAreTargets(g.nodes[v]);
    }
  }

  lemma EdgesAreTargets(node: Node)
    ensures forall k :: 0 <= k < 4 && Edges(node)[k].Some? ==> Edges(node)[k].value.entry in Targets(node)
  {
  }

  /** The tally of the current instruction's edges, read back from the scratch slots. */
  method Tallied(g: Graph, scratch: array<Slot>, current: nat) returns (u: Usage)
    requires GraphOk(g) && |g.nodes| <= scratch.Length && current < |g.nodes|
    ensures u == Combined(g, scratch[..|g.nodes|], current)
  {
    var edges := Edges(g.nodes[current]);
    var t := START;
    for k := 0 to 4
      invariant t == Gather(g, scratch[..|g.nodes|], current, k)
    {
      if edges[k].Some? {
        var child := scratch[edges[k].value.entry - g.lo];
        t := Absorb(t, edges[k].value, if child.visit.Active? then UNKNOWN else child.usage);
      }
    }
    u := Total(t);
  }

  /** Peak storage of one module. Every rejected address, import, slot or missing scratch
      is reported as such; otherwise the report is the recursive peak of the entry. */
  method ModuleRequirements(image: Image, entry: nat, lo: nat, hi: nat, scratch: array<Slot>)
    returns (r: Result<Requirements, Fault>)
    modifies scratch
    ensures image.version != IMAGE_VERSION ==> r == Err(Version)
    ensures image.version == IMAGE_VERSION && !(lo <= entry < hi <= |image.nodes|) ==> r == Err(InvalidNode)
    ensures image.version == IMAGE_VERSION && lo <= entry < hi <= |image.nodes| ==>
      && (FirstFault(image, lo, hi, lo).Some? ==> r == Err(FirstFault(image, lo, hi, lo).value))
      && (FirstFault(image, lo, hi, lo).None? && scratch.Length < hi - lo ==> r == Err(AnalysisCapacity))
      && (FirstFault(image, lo, hi, lo).None? && hi - lo <= scratch.Length ==>
            r.Ok? && Reports(ModuleGraph(image, entry, lo, hi), r.value) && r.value.bindingsPerTask == image.bindings)
  {
    if image.version != IMAGE_VERSION { return Err(Version); }
    if !(lo <= hi <= |image.nodes|) { return Err(InvalidNode); }
    if !(lo <= entry < hi) { return Err(InvalidNode); }
    for i := lo to hi
      invariant FirstFault(image, lo, hi, lo) == FirstFault(image, lo, hi, i)
    {
      var f := IndexFault(image.nodes[i], lo, hi, image.imports, image.bindings);
      if f.Some? { return Err(f.value); }
    }
    if scratch.Length < hi - lo { return Err(AnalysisCapacity); }
    var g := ModuleGraph(image, entry, lo, hi);
    ModuleOk(image, entry, lo, hi);
    for i := 0 to hi - lo
      invariant forall k :: 0 <= k < i ==> scratch[k] == BLANK
    {
      scratch[i] := BLANK;
    }
    var report := Traverse(g, scratch, image.bindings);
    r := Ok(report);
  }

  /** The scratch slots and loop variables hold the traversal state `d`. */
  ghost predicate Holds(g: Graph, d: Dfs, slots: seq<Slot>, current: nat, cyclic: bool, forks: bool) {
    DfsOk(g, d) && d.slots == slots && d.current == current && d.cyclic == cyclic && d.forks == forks
  }

  lemma Basics(g: Graph, d: Dfs)
    requires DfsOk(g, d)
    ensures GraphOk(g) && |d.slots| == |g.nodes| && d.current < |g.nodes| && d.slots[d.current].edge <= 4
  {
  }

  /** Try the current instruction's next edge: descend, meet a cycle, or move on. */
  method TryEdge(g: Graph, scratch: array<Slot>, current: nat, cyclic: bool, ghost d: Dfs)
    returns (next: nat, looped: bool, ghost e: Dfs)
    requires GraphOk(g) && |g.nodes| <= scratch.Length && current < |g.nodes| && scratch[current].edge < 4
    requires Holds(g, d, scratch[..|g.nodes|], current, cyclic, d.forks) && (d.forks || !IsFork(g, current))
    modifies scratch
    ensures Holds(g, e, scratch[..|g.nodes|], next, looped, d.forks)
    ensures Left(e.slots) < Left(d.slots)
  {
    hide DfsOk, Left;
    var n := |g.nodes|;
    Basics(g, d);
    var edge := Edges(g.nodes[current])[scratch[current].edge];
    StepShrinks(g, d);
    scratch[current] := scratch[current].(edge := scratch[current].edge + 1);
    next, looped, e := current, cyclic, Advanced(d);
    assert scratch[..n] == e.slots;
    if edge.None? {
      CrossOk(g, d);
    } else {
      var child := edge.value.entry - g.lo;
      match scratch[child].visit
      case Unseen =>
        SelfSeen(g, d);
        DescendOk(g, d, child);
        DescendShrinks(g, d, child);
        scratch[child] := scratch[child].(visit := Active, parent := Some(current));
        next, e := child, Descended(d, child);
        assert scratch[..n] == e.slots;
      case Active =>
        ActiveBefore(g, d, child);
        BackOk(g, d);
        looped, e := true, e.(cyclic := true);
      case Complete =>
        SelfSeen(g, d);
        CrossOk(g, d);
    }
  }

  /** The current instruction is active. */
  lemma SelfSeen(g: Graph, d: Dfs)
    requires DfsOk(g, d)
    ensures d.slots[d.current].visit.Active?
  {
    assert d.current in d.path;
  }

  lemma ActiveBefore(g: Graph, d: Dfs, w: nat)
    requires DfsOk(g, d) && w < |d.slots| && Advanced(d).slots[w].visit.Active?
    ensures d.slots[w].visit.Active?
  {
  }

  /** The traversal itself, from blank slots. */
  method Traverse(g: Graph, scratch: array<Slot>, bindings: nat) returns (r: Requirements)
    requires GraphOk(g) && |g.nodes| <= scratch.Length
    requires forall k :: 0 <= k < |g.nodes| ==> scratch[k] == BLANK
    modifies scratch
    ensures Reports(g, r) && r.bindingsPerTask == bindings
  {
    hide DfsOk, Left, Reports;
    var n := |g.nodes|;
    var current := g.entry;
    scratch[current] := scratch[current].(visit := Active);
    var cyclic, forks := false, false;
    BegunOk(g);
    ghost var d := Begun(g);
    assert scratch[..n] == d.slots;
    while true
      invariant Holds(g, d, scratch[..n], current, cyclic, forks)
      decreases Left(d.slots)
    {
      Basics(g, d);
      NotedOk(g, d);
      d := Noted(g, d);
      forks := forks || g.nodes[current].kind.Fork?;
      if scratch[current].edge < 4 {
        current, cyclic, d := TryEdge(g, scratch, current, cyclic, d);
      } else {
        var usage := Tallied(g, scratch, current);
        FinishShrinks(g, d);
        ParentOnPath(g, d);
        scratch[current] := scratch[current].(usage := usage, visit := Complete);
        assert scratch[..n] == Finished(g, d);
        match scratch[current].parent
        case Some(p) =>
          ReturnOk(g, d);
          d := Returned(g, d);
          current := p;
        case None =>
          EndingReports(g, d, bindings);
          return Requirements(
            if cyclic && forks then None else usage.tasks,
            if cyclic then None else Maximum(usage.own, usage.child),
            if cyclic then None else usage.frames, bindings);
      }
    }
  }

  lemma StepShrinks(g: Graph, d: Dfs)
    requires DfsOk(g, d) && d.slots[d.current].edge < 4
    ensures Left(Advanced(d).slots) < Left(d.slots)
  {
    LeftSet(d.slots, d.current, Advanced(d).slots[d.current]);
  }

  lemma DescendShrinks(g: Graph, d: Dfs, w: nat)
    requires DfsOk(g, d) && d.slots[d.current].edge < 4 && w < |d.slots| && d.slots[w].visit.Unseen?
    ensures Left(Descended(d, w).slots) < Left(d.slots)
  {
    StepShrinks(g, d);
    LeftSet(Advanced(d).slots, w, Descended(d, w).slots[w]);
  }

  lemma FinishShrinks(g: Graph, d: Dfs)
    requires DfsOk(g, d)
    ensures Left(Finished(g, d)) < Left(d.slots)
  {
    assert d.current in d.path;
    LeftSet(d.slots, d.current, Finished(g, d)[d.current]);
  }

  /** The parent of the current instruction is the one before it on the path. */
  lemma ParentOnPath(g: Graph, d: Dfs)
    requires DfsOk(g, d)
    ensures |d.path| > 0
    ensures d.slots[d.current].parent == if |d.path| == 1 then None else Some(d.path[|d.path| - 2])
  {
    if |d.path| > 1 {
      var i := |d.path| - 2;
      assert d.slots[d.path[i + 1]].parent == Some(d.path[i]);
    }
  }
}
