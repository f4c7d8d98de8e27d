/** Peak storage of instructions: the edges of the instruction graph, and how an
    instruction's usage combines the usage of what it starts. Models the pure parts of
    crates/xolotl-core/src/analysis.rs. */
module Usage {
  import opened Program

  const USIZE_MAX: nat := U64_MAX

  datatype Edge = Edge(entry: nat, frames: nat, fork: bool)

  function LocalEdge(entry: nat, frames: nat): Option<Edge> { Some(Edge(entry, frames, false)) }

  function ForkEdge(entry: nat): Option<Edge> { Some(Edge(entry, 0, true)) }

  /** Everything an instruction may start, with the frames held on its own stack meanwhile. */
  function Edges(node: Node): (r: seq<Option<Edge>>)
    ensures |r| == 4
  {
    (match node.kind
     case Then(a, b) => [LocalEdge(a, 2), LocalEdge(b, 1), None]
     case Catch(a, b) => [LocalEdge(a, 2), LocalEdge(b, 1), None]
     case Finally(a, b) => [LocalEdge(a, 2), LocalEdge(b, 2), None]
     case If(a, b) => [LocalEdge(a, 1), LocalEdge(b, 1), None]
     case Branch(c, a, b) => [LocalEdge(c, 2), LocalEdge(a, 1), LocalEdge(b, 1)]
     case Let(_, a, b) => [LocalEdge(a, 2), LocalEdge(b, 2), None]
     case While(a, b, _) => [LocalEdge(a, 2), LocalEdge(b, 2), None]
     case Fork(a, b, _) => [ForkEdge(a), ForkEdge(b), None]
     case Call(a) => [LocalEdge(a, 1), None, None]
     case Scope(_, a) => [LocalEdge(a, 2), None, None]
     case _ => [None, None, None]) +
    [if node.next.Some? then LocalEdge(node.next.value, 0) else None]
  }

  /** Every edge stays inside the module `[lo, lo + n)`. */
  predicate EdgesIn(node: Node, lo: nat, n: nat) {
    forall k :: 0 <= k < 4 && Edges(node)[k].Some? ==> lo <= Edges(node)[k].value.entry < lo + n
  }

  // ----- overflow-checked arithmetic -----

  function Maximum(a: Option<nat>, b: Option<nat>): Option<nat> {
    if a.Some? && b.Some? then Some(if a.value >= b.value then a.value else b.value) else None
  }

  function Sum(a: Option<nat>, b: Option<nat>): Option<nat> {
    if a.Some? && b.Some? && a.value + b.value <= USIZE_MAX then Some(a.value + b.value) else None
  }

  datatype Usage = Usage(own: Option<nat>, child: Option<nat>, tasks: Option<nat>, frames: Option<nat>)

  const FRESH: Usage := Usage(Some(0), Some(0), Some(1), Some(0))

  /** What is assumed of an instruction whose own analysis is still under way. */
  const UNKNOWN: Usage := Usage(None, None, Some(1), None)

  /** A usage under construction, with the totals of fork branches seen so far. */
  datatype Tally = Tally(usage: Usage, forkTasks: Option<nat>, forkFrames: Option<nat>)

  const START: Tally := Tally(FRESH, Some(1), Some(0))

  function Absorb(t: Tally, e: Edge, c: Usage): Tally {
    var u := t.usage;
    if e.fork then
      Tally(u.(child := Maximum(u.child, Maximum(c.own, c.child))), Sum(t.forkTasks, c.tasks),
        Sum(t.forkFrames, c.frames))
    else
      t.(usage := Usage(
           Maximum(u.own, Sum(Some(e.frames), c.own)),
           Maximum(u.child, c.child),
           Maximum(u.tasks, c.tasks),
           Maximum(u.frames, Sum(Some(e.frames), c.frames))))
  }

  function Total(t: Tally): Usage {
    t.usage.(tasks := Maximum(t.usage.tasks, t.forkTasks), frames := Maximum(t.usage.frames, t.forkFrames))
  }

  // ----- the same in unbounded arithmetic -----

  datatype Need = Need(own: nat, child: nat, tasks: nat, frames: nat)

  datatype Sums = Sums(need: Need, forkTasks: nat, forkFrames: nat)

  function Include(t: Sums, e: Edge, c: Need): Sums {
    var u := t.need;
    if e.fork then
      Sums(u.(child := Max(u.child, Max(c.own, c.child))), t.forkTasks + c.tasks, t.forkFrames + c.frames)
    else
      t.(need := Need(Max(u.own, e.frames + c.own), Max(u.child, c.child), Max(u.tasks, c.tasks),
        Max(u.frames, e.frames + c.frames)))
  }

  /** Peak need of instruction `v`, expanding at most `depth` levels of the graph below it. */
  function Peak(g: seq<Node>, lo: nat, v: nat, depth: nat): Need
    decreases depth, 5
  {
    if depth == 0 || v >= |g| then Need(0, 0, 1, 0)
    else
      var t := PeakSums(g, lo, v, depth, 4);
      t.need.(tasks := Max(t.need.tasks, t.forkTasks), frames := Max(t.need.frames, t.forkFrames))
  }

  function PeakSums(g: seq<Node>, lo: nat, v: nat, depth: nat, k: nat): Sums
    requires depth > 0 && v < |g| && k <= 4
    decreases depth, k
  {
    if k == 0 then Sums(Need(0, 0, 1, 0), 1, 0)
    else
      var t := PeakSums(g, lo, v, depth, k - 1);
      var e := Edges(g[v])[k - 1];
      if e.None? || e.value.entry < lo then t
      else Include(t, e.value, Peak(g, lo, e.value.entry - lo, depth - 1))
  }

  function Checked(n: nat): Option<nat> { if n <= USIZE_MAX then Some(n) else None }

  function CheckedNeed(u: Need): Usage { Usage(Checked(u.own), Checked(u.child), Checked(u.tasks), Checked(u.frames)) }

  function CheckedSums(t: Sums): Tally { Tally(CheckedNeed(t.need), Checked(t.forkTasks), Checked(t.forkFrames)) }

  /** Overflow checking commutes with taking maxima and sums: a checked result is absent
      exactly when the true value does not fit. */
  lemma AbsorbChecked(t: Sums, e: Edge, c: Need)
    requires e.frames <= 2
    ensures Absorb(CheckedSums(t), e, CheckedNeed(c)) == CheckedSums(Include(t, e, c))
  {
  }
}
