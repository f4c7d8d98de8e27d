/** The live tasks of a machine form one tree: every joining task has exactly two
    live children, and every other live task is a leaf. */
module Forest {
  import opened Program
  import opened Machine
  import opened Stacks
  import opened Indices

  datatype Tree = Solo(id: nat) | Pair(id: nat, left: Tree, right: Tree)

  function Ids(tree: Tree): set<nat> {
    match tree
    case Solo(i) => {i}
    case Pair(i, l, r) => {i} + Ids(l) + Ids(r)
  }

  predicate Distinct(tree: Tree) {
    match tree
    case Solo(_) => true
    case Pair(i, l, r) => Distinct(l) && Distinct(r) && i !in Ids(l) && i !in Ids(r) && Ids(l) !! Ids(r)
  }

  /** The subtree rooted at task `id`. */
  function At(tree: Tree, id: nat): (sub: Tree)
    requires id in Ids(tree)
    ensures sub.id == id && Ids(sub) <= Ids(tree)
    ensures Distinct(tree) ==> Distinct(sub)
  {
    if tree.id == id then tree
    else if id in Ids(tree.left) then At(tree.left, id)
    else At(tree.right, id)
  }

  /** Replace the subtree whose root has `sub`'s id. */
  function Graft(tree: Tree, sub: Tree): (r: Tree)
    ensures r.id == tree.id
  {
    if tree.id == sub.id then sub
    else
      match tree
      case Solo(_) => tree
      case Pair(i, l, r) => Pair(i, Graft(l, sub), Graft(r, sub))
  }

  predicate NodeOk(t: Task, parent: Option<nat>, inherited: nat) {
    && t.parent == parent
    && !t.state.Free?
    && t.input.Some?
    && (t.state.Halted? ==> parent.None?)
    && (t.state.Done? ==> t.stack == [])
    && t.cleaning == inherited + CleanedIn(t.stack)
  }

  predicate Shape(tasks: seq<Task>, tree: Tree, parent: Option<nat>, inherited: nat) {
    && tree.id < |tasks|
    && NodeOk(tasks[tree.id], parent, inherited)
    && match tree
       case Solo(i) => JoinOf(tasks[i].state).None?
       case Pair(i, l, r) =>
         var j := JoinOf(tasks[i].state);
         && j.Some? && j.value.left == l.id && j.value.right == r.id
         && Shape(tasks, l, Some(i), tasks[i].cleaning)
         && Shape(tasks, r, Some(i), tasks[i].cleaning)
  }

  predicate Covers(tasks: seq<Task>, tree: Tree) {
    forall i :: 0 <= i < |tasks| ==> (i in Ids(tree) <==> !tasks[i].state.Free?)
  }

  ghost predicate IdleOk(tasks: seq<Task>, width: nat) {
    forall i :: 0 <= i < |tasks| ==> tasks[i].state.Free? ==> tasks[i] == Idle(width)
  }

  predicate TasksOk(image: Image, limits: Limits, tasks: seq<Task>) {
    forall i :: 0 <= i < |tasks| ==> TaskOk(image, limits, tasks[i])
  }

  /** The invariant of every reachable machine, with the tree of its live tasks. */
  ghost predicate Inv(s: Setting, m: Machine, tree: Tree) {
    && |m.tasks| > 0 && m.cursor < |m.tasks|
    && ProgramOk(s, m.limits.bindingsPerTask)
    && tree.id == 0 && Distinct(tree) && Shape(m.tasks, tree, None, 0)
    && Covers(m.tasks, tree)
    && IdleOk(m.tasks, m.limits.bindingsPerTask)
    && TasksOk(s.image, m.limits, m.tasks)
    && Occupied(m.tasks) <= m.capacity
  }

  // ----- trees -----

  lemma {:induction false} GraftIds(tree: Tree, sub: Tree)
    requires Distinct(tree) && Distinct(sub) && sub.id in Ids(tree)
    requires Ids(sub) !! (Ids(tree) - Ids(At(tree, sub.id)))
    ensures Distinct(Graft(tree, sub))
    ensures Ids(Graft(tree, sub)) == (Ids(tree) - Ids(At(tree, sub.id))) + Ids(sub)
  {
    if tree.id == sub.id {
    } else if sub.id in Ids(tree.left) {
      GraftIds(tree.left, sub);
      GraftMiss(tree.right, sub);
    } else {
      GraftIds(tree.right, sub);
      GraftMiss(tree.left, sub);
    }
  }

  lemma {:induction false} GraftMiss(tree: Tree, sub: Tree)
    requires sub.id !in Ids(tree)
    ensures Graft(tree, sub) == tree
  {
    if tree.Pair? {
      GraftMiss(tree.left, sub);
      GraftMiss(tree.right, sub);
    }
  }

  /** What the shape says about one of its tasks. */
  lemma {:induction false} ShapeAt(tasks: seq<Task>, tree: Tree, parent: Option<nat>, inherited: nat, i: nat)
    requires Shape(tasks, tree, parent, inherited) && i in Ids(tree)
    ensures i < |tasks| && CleanedIn(tasks[i].stack) <= tasks[i].cleaning
    ensures Shape(tasks, At(tree, i), tasks[i].parent, tasks[i].cleaning - CleanedIn(tasks[i].stack))
    ensures i != tree.id ==> tasks[i].parent.Some? && tasks[i].parent.value in Ids(tree)
  {
    if tree.id == i {
    } else if i in Ids(tree.left) {
      ShapeAt(tasks, tree.left, Some(tree.id), tasks[tree.id].cleaning, i);
    } else {
      ShapeAt(tasks, tree.right, Some(tree.id), tasks[tree.id].cleaning, i);
    }
  }

  /** Everything the shape looks at in a task. */
  ghost predicate Alike(t: Task, u: Task) { u == t.(cancelled := u.cancelled, env := u.env) }

  lemma {:induction false} ShapeAlike(tasks: seq<Task>, other: seq<Task>, tree: Tree, parent: Option<nat>,
      inherited: nat)
    requires Shape(tasks, tree, parent, inherited)
    requires forall k :: k in Ids(tree) && k < |tasks| ==> k < |other| && Alike(tasks[k], other[k])
    ensures Shape(other, tree, parent, inherited)
  {
    if tree.Pair? {
      ShapeAlike(tasks, other, tree.left, Some(tree.id), tasks[tree.id].cleaning);
      ShapeAlike(tasks, other, tree.right, Some(tree.id), tasks[tree.id].cleaning);
    }
    assert tree.id in Ids(tree);
  }

  /** Replacing one subtree of tasks by another that fits the same place. */
  lemma {:induction false} GraftShape(
    tasks: seq<Task>, other: seq<Task>, tree: Tree, sub: Tree, parent: Option<nat>, inherited: nat)
    requires Shape(tasks, tree, parent, inherited) && Distinct(tree)
    requires sub.id in Ids(tree) && sub.id < |tasks| && CleanedIn(tasks[sub.id].stack) <= tasks[sub.id].cleaning
    requires forall k :: k in Ids(tree) && k !in Ids(At(tree, sub.id)) && k < |tasks| ==>
      k < |other| && other[k] == tasks[k]
    requires Shape(other, sub, tasks[sub.id].parent, tasks[sub.id].cleaning - CleanedIn(tasks[sub.id].stack))
    ensures Shape(other, Graft(tree, sub), parent, inherited)
  {
    if tree.id == sub.id {
    } else {
      assert tree.id in Ids(tree) && other[tree.id] == tasks[tree.id];
      var c := tasks[tree.id].cleaning;
      if sub.id in Ids(tree.left) {
        GraftShape(tasks, other, tree.left, sub, Some(tree.id), c);
        GraftMiss(tree.right, sub);
        ShapeAlike(tasks, other, tree.right, Some(tree.id), c);
      } else {
        GraftShape(tasks, other, tree.right, sub, Some(tree.id), c);
        GraftMiss(tree.left, sub);
        ShapeAlike(tasks, other, tree.left, Some(tree.id), c);
      }
    }
  }

  // ----- storage accounting -----

  lemma {:induction false} OccupiedSet(tasks: seq<Task>, i: nat, u: Task)
    requires i < |tasks|
    ensures Occupied(tasks[i := u]) == Occupied(tasks) - |tasks[i].stack| + |u.stack|
  {
    var n := |tasks| - 1;
    if i == n {
      assert tasks[i := u][..n] == tasks[..n];
    } else {
      assert tasks[i := u][..n] == tasks[..n][i := u];
      OccupiedSet(tasks[..n], i, u);
    }
  }

  lemma {:induction false} OccupiedAlike(tasks: seq<Task>, other: seq<Task>)
    requires |tasks| == |other|
    requires forall k :: 0 <= k < |tasks| ==> other[k].stack == tasks[k].stack
    ensures Occupied(other) == Occupied(tasks)
  {
    if tasks != [] {
      OccupiedAlike(tasks[..|tasks| - 1], other[..|tasks| - 1]);
    }
  }

  // ----- the invariant moves with the machine -----

  lemma IdleFits(image: Image, limits: Limits)
    ensures var idle := Idle(limits.bindingsPerTask); idle.state.Free? && TaskOk(image, limits, idle)
  {
  }

  /** Replace the subtree at `sub.id` by `sub`; slots it no longer uses become idle. */
  lemma Replaced(s: Setting, m: Machine, tree: Tree, other: seq<Task>, sub: Tree)
    requires Inv(s, m, tree) && sub.id in Ids(tree) && sub.id < |m.tasks|
    requires CleanedIn(m.tasks[sub.id].stack) <= m.tasks[sub.id].cleaning
    requires |other| == |m.tasks| && Distinct(sub)
    requires Ids(sub) !! (Ids(tree) - Ids(At(tree, sub.id)))
    requires forall k :: 0 <= k < |other| && k !in Ids(At(tree, sub.id)) && k !in Ids(sub) ==> other[k] == m.tasks[k]
    requires forall k :: 0 <= k < |other| && k in Ids(At(tree, sub.id)) && k !in Ids(sub) ==>
      other[k] == Idle(m.limits.bindingsPerTask)
    requires forall k :: 0 <= k < |other| && k in Ids(sub) ==>
      !other[k].state.Free? && TaskOk(s.image, m.limits, other[k])
    requires Shape(other, sub, m.tasks[sub.id].parent, m.tasks[sub.id].cleaning - CleanedIn(m.tasks[sub.id].stack))
    requires Occupied(other) <= m.capacity
    ensures Inv(s, m.(tasks := other), Graft(tree, sub))
  {
    hide CleanedIn, Occupied, Shape, Distinct, At, Graft, TaskOk, Idle, Ids;
    IdleFits(s.image, m.limits);
    GraftIds(tree, sub);
    GraftShape(m.tasks, other, tree, sub, None, 0);
  }

  lemma LeafAt(tasks: seq<Task>, tree: Tree, i: nat)
    requires Shape(tasks, tree, None, 0) && i in Ids(tree) && i < |tasks| && JoinOf(tasks[i].state).None?
    ensures At(tree, i) == Solo(i) && Ids(Solo(i)) == {i} && Distinct(Solo(i))
      && CleanedIn(tasks[i].stack) <= tasks[i].cleaning
    ensures NodeOk(tasks[i], tasks[i].parent, tasks[i].cleaning - CleanedIn(tasks[i].stack))
  {
    ShapeAt(tasks, tree, None, 0, i);
  }

  lemma LeafShape(tasks: seq<Task>, i: nat, u: Task)
    requires i < |tasks| && SameFrame(tasks[i], u) && Single(u) && CleanedIn(tasks[i].stack) <= tasks[i].cleaning
    requires NodeOk(tasks[i], tasks[i].parent, tasks[i].cleaning - CleanedIn(tasks[i].stack))
    ensures Shape(tasks[i := u], Solo(i), tasks[i].parent, tasks[i].cleaning - CleanedIn(tasks[i].stack))
  {
    hide CleanedIn, Restored, RestoredContext;
  }

  /** Rewriting one leaf keeps the tree. */
  lemma LeafMoves(s: Setting, m: Machine, tree: Tree, i: nat, u: Task)
    requires Inv(s, m, tree) && i in Ids(tree) && i < |m.tasks| && JoinOf(m.tasks[i].state).None?
    requires Successor(s.image, m.limits.framesPerTask, Room(m), m.tasks[i], u)
    ensures Inv(s, SetTask(m, i, u), tree)
  {
    hide CleanedIn, Occupied, Restored, RestoredContext, Shape, Distinct, At, Graft, Ids, Idle;
    LeafAt(m.tasks, tree, i);
    LeafShape(m.tasks, i, u);
    OccupiedSet(m.tasks, i, u);
    Replaced(s, m, tree, m.tasks[i := u], Solo(i));
    GraftSame(tree, i);
  }

  lemma {:induction false} GraftSame(tree: Tree, i: nat)
    requires Distinct(tree) && i in Ids(tree)
    ensures Graft(tree, At(tree, i)) == tree
  {
    if tree.id == i {
    } else if i in Ids(tree.left) {
      GraftSame(tree.left, i);
      GraftMiss(tree.right, At(tree, i));
    } else {
      GraftSame(tree.right, i);
      GraftMiss(tree.left, At(tree, i));
    }
  }

  /** Marking tasks as cancelled keeps the tree. */
  lemma MarkingKeeps(s: Setting, m: Machine, tree: Tree, other: seq<Task>)
    requires Inv(s, m, tree) && |other| == |m.tasks|
    requires forall k :: 0 <= k < |other| ==> other[k] == m.tasks[k].(cancelled := other[k].cancelled)
    requires forall k :: 0 <= k < |other| && m.tasks[k].state.Free? ==> other[k] == m.tasks[k]
    ensures Inv(s, m.(tasks := other), tree)
  {
    hide CleanedIn, Occupied, Shape, Ids, Distinct, FrameOk, Idle;
    OccupiedAlike(m.tasks, other);
    ShapeAlike(m.tasks, other, tree, None, 0);
    forall k | 0 <= k < |other| ensures TaskOk(s.image, m.limits, other[k]) {
      assert TaskOk(s.image, m.limits, m.tasks[k]);
    }
  }

  // ----- ancestors -----

  /** How many ancestors a live task has. */
  ghost function Level(tree: Tree, id: nat): nat
    requires id in Ids(tree)
  {
    if tree.id == id then 0
    else if id in Ids(tree.left) then 1 + Level(tree.left, id)
    else 1 + Level(tree.right, id)
  }

  lemma {:induction false} ParentLevel(tasks: seq<Task>, tree: Tree, parent: Option<nat>, inherited: nat, i: nat)
    requires Shape(tasks, tree, parent, inherited) && Distinct(tree) && i in Ids(tree)
    ensures i < |tasks|
    ensures if i == tree.id then tasks[i].parent == parent
            else tasks[i].parent.Some? && tasks[i].parent.value in Ids(tree)
                 && Level(tree, i) == Level(tree, tasks[i].parent.value) + 1
  {
    if i == tree.id {
    } else if i in Ids(tree.left) {
      ParentLevel(tasks, tree.left, Some(tree.id), tasks[tree.id].cleaning, i);
    } else {
      ParentLevel(tasks, tree.right, Some(tree.id), tasks[tree.id].cleaning, i);
    }
  }

  lemma ParentIn(tasks: seq<Task>, tree: Tree, i: nat)
    requires Shape(tasks, tree, None, 0) && Distinct(tree) && i in Ids(tree)
    ensures i < |tasks|
    ensures var p := tasks[i].parent;
      p.Some? ==> p.value in Ids(tree) && p.value < |tasks| && Level(tree, i) == Level(tree, p.value) + 1
    ensures tasks[i].parent.None? ==> Level(tree, i) == 0
  {
    ParentLevel(tasks, tree, None, 0, i);
    if i != tree.id {
      ParentLevel(tasks, tree, None, 0, tasks[i].parent.value);
    }
  }

  /** Following parents as often as a task has ancestors finds every ancestor. */
  lemma {:induction false} UnderLevel(tasks: seq<Task>, tree: Tree, i: nat, root: nat, fuel: nat)
    requires Shape(tasks, tree, None, 0) && Distinct(tree) && i in Ids(tree) && fuel >= Level(tree, i)
    ensures Under(tasks, i, root, fuel) == Under(tasks, i, root, Level(tree, i))
    decreases fuel
  {
    ParentLevel(tasks, tree, None, 0, i);
    if i != tree.id {
      UnderLevel(tasks, tree, tasks[i].parent.value, root, fuel - 1);
    }
  }

  lemma {:induction false} LevelSize(tree: Tree, i: nat)
    requires Distinct(tree) && i in Ids(tree)
    ensures Level(tree, i) < |Ids(tree)|
  {
    if tree.Pair? {
      assert Ids(tree.left) <= Ids(tree) - {tree.id} && Ids(tree.right) <= Ids(tree) - {tree.id};
      SubsetSize(Ids(tree.left), Ids(tree) - {tree.id});
      SubsetSize(Ids(tree.right), Ids(tree) - {tree.id});
      if i != tree.id {
        LevelSize(if i in Ids(tree.left) then tree.left else tree.right, i);
      }
    } else {
      assert i in Ids(tree) && |{tree.id}| == 1;
    }
  }

  lemma LevelBelow(tasks: seq<Task>, tree: Tree, i: nat)
    requires Shape(tasks, tree, None, 0) && Distinct(tree) && i in Ids(tree)
    ensures Level(tree, i) < |tasks|
  {
    forall k | k in Ids(tree) ensures k in Below(|tasks|) {
      ParentLevel(tasks, tree, None, 0, k);
    }
    SubsetSize(Ids(tree), Below(|tasks|));
    LevelSize(tree, i);
  }

  /** Ancestors are nearer the root. */
  lemma {:induction false} UnderHigher(tasks: seq<Task>, tree: Tree, i: nat, root: nat, fuel: nat)
    requires Shape(tasks, tree, None, 0) && Distinct(tree) && i in Ids(tree) && Under(tasks, i, root, fuel)
    ensures root in Ids(tree) && Level(tree, root) < Level(tree, i)
    decreases fuel
  {
    ParentIn(tasks, tree, i);
    if tasks[i].parent.value != root {
      UnderHigher(tasks, tree, tasks[i].parent.value, root, fuel - 1);
    }
  }

  /** A live task that is not the root is one of the two branches of its parent, and cleans up
      inside whatever its parent cleans up. */
  lemma {:induction false} ParentLists(tasks: seq<Task>, tree: Tree, parent: Option<nat>, inherited: nat, i: nat)
    requires Shape(tasks, tree, parent, inherited) && Distinct(tree) && i in Ids(tree) && i != tree.id
    ensures i < |tasks| && tasks[i].parent.Some? && tasks[i].parent.value < |tasks|
    ensures var p := tasks[i].parent.value;
      && p in Ids(tree) && Level(tree, i) == Level(tree, p) + 1
      && JoinOf(tasks[p].state).Some?
      && (JoinOf(tasks[p].state).value.left == i || JoinOf(tasks[p].state).value.right == i)
      && tasks[i].cleaning == tasks[p].cleaning + CleanedIn(tasks[i].stack)
  {
    hide CleanedIn;
    ParentLevel(tasks, tree, parent, inherited, i);
    var side := if i in Ids(tree.left) then tree.left else tree.right;
    if i != side.id {
      ParentLists(tasks, side, Some(tree.id), tasks[tree.id].cleaning, i);
    }
  }
}
