/** The shared continuation arena: one intrusive stack per task, a free list and an
    untouched tail in a single array. Models crates/xolotl-core/src/frame.rs. */
module Arena {
  import opened Program
  import opened Machine

  /** The link that ends a chain. */
  const NONE: nat := U32_MAX

  datatype Frame = Frame(kind: FrameKind, previous: nat)

  datatype Stack = Stack(top: nat, depth: nat)

  /** Who uses a slot: entry `depth` of a task's stack, or entry `rank` of the free list. */
  datatype Place = Held(owner: nat, depth: nat) | Loose(rank: nat)

  /** The slots of every stack from bottom to top, those of the free list from its end to
      its head, and the use of every slot handed out so far. */
  datatype Plan = Plan(paths: seq<seq<nat>>, free: seq<nat>, place: seq<Place>)

  function Link(path: seq<nat>, d: nat): nat
    requires d <= |path|
  {
    if d == 0 then NONE else path[d - 1]
  }

  lemma LinkPrefix(path: seq<nat>, d: nat)
    requires d <= |path|
    ensures Link(path[..d], d) == Link(path, d) && (0 < d ==> Link(path, d) == path[d - 1])
  {
  }

  function Head(path: seq<nat>): Stack { Stack(Link(path, |path|), |path|) }

  function Total<T>(rows: seq<seq<T>>): nat {
    if rows == [] then 0 else Total(rows[..|rows| - 1]) + |rows[|rows| - 1]|
  }

  predicate PathAt(p: Plan, o: nat, d: nat) {
    o < |p.paths| && d < |p.paths[o]| ==> p.paths[o][d] < |p.place| && p.place[p.paths[o][d]] == Held(o, d)
  }

  predicate FreeAt(p: Plan, k: nat) {
    k < |p.free| ==> p.free[k] < |p.place| && p.place[p.free[k]] == Loose(k)
  }

  predicate PlaceAt(p: Plan, i: nat) {
    i < |p.place| ==>
      match p.place[i]
      case Held(o, d) => o < |p.paths| && d < |p.paths[o]| && p.paths[o][d] == i
      case Loose(k) => k < |p.free| && p.free[k] == i
  }

  /** Stacks, free list and untouched tail partition the slots. */
  ghost predicate Partition(p: Plan) {
    && (forall o: nat, d: nat :: PathAt(p, o, d)) && (forall k: nat :: FreeAt(p, k)) && (forall i: nat :: PlaceAt(p, i))
    && Total(p.paths) + |p.free| == |p.place|
  }

  /** `path` is a chain of linked slots that hold `kinds`. */
  ghost predicate Chain(cells: seq<Option<Frame>>, path: seq<nat>, kinds: seq<FrameKind>) {
    && |kinds| == |path|
    && forall d :: 0 <= d < |path| ==> path[d] < |cells| && cells[path[d]] == Some(Frame(kinds[d], Link(path, d)))
  }

  function Vacancies(n: nat): (r: seq<FrameKind>)
    ensures |r| == n && forall k :: 0 <= k < n ==> r[k] == Vacant
  {
    seq(n, _ => Vacant)
  }

  /** The array spells out the plan: every chain is linked, free slots are vacant, and the
      tail is empty. */
  ghost predicate Spells(cells: seq<Option<Frame>>, p: Plan, stacks: seq<seq<FrameKind>>) {
    && |p.place| <= |cells| && |stacks| == |p.paths|
    && (forall o :: 0 <= o < |stacks| ==> Chain(cells, p.paths[o], stacks[o]))
    && Chain(cells, p.free, Vacancies(|p.free|))
    && (forall i :: |p.place| <= i < |cells| ==> cells[i].None?)
  }

  lemma ChainKept(cells: seq<Option<Frame>>, path: seq<nat>, kinds: seq<FrameKind>, i: nat, cell: Option<Frame>)
    requires Chain(cells, path, kinds) && i < |cells| && i !in path
    ensures Chain(cells[i := cell], path, kinds)
  {
  }

  lemma ChainLonger(cells: seq<Option<Frame>>, path: seq<nat>, kinds: seq<FrameKind>, i: nat, kind: FrameKind)
    requires Chain(cells, path, kinds) && i < |cells| && i !in path
    ensures Chain(cells[i := Some(Frame(kind, Link(path, |path|)))], path + [i], kinds + [kind])
  {
  }

  lemma ChainShorter(cells: seq<Option<Frame>>, path: seq<nat>, kinds: seq<FrameKind>, cell: Option<Frame>)
    requires Chain(cells, path, kinds) && path != [] && path[|path| - 1] !in path[..|path| - 1]
    ensures Chain(cells[path[|path| - 1] := cell], path[..|path| - 1], kinds[..|path| - 1])
  {
  }

  // ----- sums over the stacks -----

  lemma {:induction false} TotalSet<T>(rows: seq<seq<T>>, o: nat, row: seq<T>)
    requires o < |rows|
    ensures Total(rows[o := row]) + |rows[o]| == Total(rows) + |row|
  {
    var last := |rows| - 1;
    if o == last {
      assert rows[o := row][..last] == rows[..last];
    } else {
      assert rows[o := row][..last] == rows[..last][o := row];
      TotalSet(rows[..last], o, row);
    }
  }

  // ----- what a push and a pop do to the plan -----

  /** Slot `i` is taken from the free list, or else from the tail, for the top of stack `o`. */
  function Taken(p: Plan, o: nat): Plan
    requires o < |p.paths|
  {
    var d := |p.paths[o]|;
    if p.free == [] then Plan(p.paths[o := p.paths[o] + [|p.place|]], [], p.place + [Held(o, d)])
    else
      var i := p.free[|p.free| - 1];
      Plan(p.paths[o := p.paths[o] + [i]], p.free[..|p.free| - 1],
           if i < |p.place| then p.place[i := Held(o, d)] else p.place)
  }

  lemma TakenPartition(p: Plan, o: nat)
    requires Partition(p) && o < |p.paths|
    ensures Partition(Taken(p, o))
  {
    hide Total;
    var q := Taken(p, o);
    TotalSet(p.paths, o, q.paths[o]);
    assert p.free != [] ==> FreeAt(p, |p.free| - 1);
    forall a: nat, d: nat ensures PathAt(q, a, d) {
      assert PathAt(p, a, d);
    }
    forall k: nat ensures FreeAt(q, k) {
      assert FreeAt(p, k);
    }
    forall i: nat ensures PlaceAt(q, i) {
      assert PlaceAt(p, i);
    }
  }

  /** A slot in use belongs to one chain, once. */
  lemma OneUse(p: Plan, a: nat, d: nat)
    requires Partition(p) && a < |p.paths| && d < |p.paths[a]|
    ensures p.paths[a][d] !in p.free && p.paths[a][d] !in p.paths[a][..d]
    ensures forall b :: 0 <= b < |p.paths| && b != a ==> p.paths[a][d] !in p.paths[b]
  {
    assert PathAt(p, a, d);
    forall k: nat | k < |p.free| ensures p.free[k] != p.paths[a][d] {
      assert FreeAt(p, k);
    }
    forall b: nat, e: nat | b < |p.paths| && e < |p.paths[b]| && (b != a || e != d)
      ensures p.paths[b][e] != p.paths[a][d]
    {
      assert PathAt(p, b, e);
    }
  }

  lemma OneRank(p: Plan, k: nat)
    requires Partition(p) && k < |p.free|
    ensures p.free[k] !in p.free[..k] && p.free[k] < |p.place| && forall b :: 0 <= b < |p.paths| ==>
      p.free[k] !in p.paths[b]
  {
    assert FreeAt(p, k);
    forall j: nat | j < k ensures p.free[j] != p.free[k] {
      assert FreeAt(p, j);
    }
    forall b: nat, e: nat | b < |p.paths| && e < |p.paths[b]| ensures p.paths[b][e] != p.free[k] {
      assert PathAt(p, b, e);
    }
  }

  /** The slot the next push takes. */
  function NextSlot(p: Plan): nat { if p.free == [] then |p.place| else p.free[|p.free| - 1] }

  lemma NextSlotUnused(p: Plan)
    requires Partition(p)
    ensures forall b :: 0 <= b < |p.paths| ==> NextSlot(p) !in p.paths[b]
    ensures p.free != [] ==> NextSlot(p) !in p.free[..|p.free| - 1] && NextSlot(p) < |p.place|
  {
    if p.free != [] {
      OneRank(p, |p.free| - 1);
    } else {
      forall b: nat, e: nat | b < |p.paths| && e < |p.paths[b]| ensures p.paths[b][e] < |p.place| {
        assert PathAt(p, b, e);
      }
    }
  }

  lemma FreeShorter(cells: seq<Option<Frame>>, p: Plan, cell: Option<Frame>)
    requires Chain(cells, p.free, Vacancies(|p.free|)) && NextSlot(p) < |cells|
    requires p.free != [] ==> NextSlot(p) !in p.free[..|p.free| - 1]
    ensures var less := if p.free == [] then [] else p.free[..|p.free| - 1];
      Chain(cells[NextSlot(p) := cell], less, Vacancies(|less|))
  {
    if p.free != [] {
      ChainShorter(cells, p.free, Vacancies(|p.free|), cell);
      assert Vacancies(|p.free|)[..|p.free| - 1] == Vacancies(|p.free| - 1);
    }
  }

  lemma TakenSpells(cells: seq<Option<Frame>>, p: Plan, stacks: seq<seq<FrameKind>>, o: nat, kind: FrameKind)
    requires Partition(p) && Spells(cells, p, stacks) && o < |p.paths| && (p.free == [] ==> |p.place| < |cells|)
    ensures var cell := Some(Frame(kind, Link(p.paths[o], |p.paths[o]|)));
      NextSlot(p) < |cells| && Spells(cells[NextSlot(p) := cell], Taken(p, o), stacks[o := stacks[o] + [kind]])
  {
    hide Chain, Partition, Link, Vacancies;
    var cell, i := Some(Frame(kind, Link(p.paths[o], |p.paths[o]|))), NextSlot(p);
    NextSlotUnused(p);
    FreeShorter(cells, p, cell);
    ChainLonger(cells, p.paths[o], stacks[o], i, kind);
    forall a | 0 <= a < |p.paths| && a != o ensures Chain(cells[i := cell], p.paths[a], stacks[a]) {
      ChainKept(cells, p.paths[a], stacks[a], i, cell);
    }
  }

  /** The top slot of stack `o` goes back to the tail if it borders it, and to the free list otherwise. */
  function Dropped(p: Plan, o: nat): Plan
    requires o < |p.paths| && p.paths[o] != []
  {
    var d := |p.paths[o]| - 1;
    var i := p.paths[o][d];
    var paths := p.paths[o := p.paths[o][..d]];
    if i + 1 == |p.place| then Plan(paths, p.free, p.place[..i])
    else Plan(paths, p.free + [i], if i < |p.place| then p.place[i := Loose(|p.free|)] else p.place)
  }

  lemma DroppedPartition(p: Plan, o: nat)
    requires Partition(p) && o < |p.paths| && p.paths[o] != []
    ensures Partition(Dropped(p, o))
  {
    hide Total;
    var q := Dropped(p, o);
    TotalSet(p.paths, o, q.paths[o]);
    var d := |p.paths[o]| - 1;
    assert PathAt(p, o, d);
    forall a: nat, e: nat ensures PathAt(q, a, e) {
      assert PathAt(p, a, e);
    }
    forall k: nat ensures FreeAt(q, k) {
      assert FreeAt(p, k);
    }
    forall j: nat ensures PlaceAt(q, j) {
      assert PlaceAt(p, j);
    }
  }

  /** The slot on top of stack `o`. */
  function TopSlot(p: Plan, o: nat): nat
    requires o < |p.paths| && p.paths[o] != []
  {
    p.paths[o][|p.paths[o]| - 1]
  }

  lemma TopSlotUse(p: Plan, o: nat)
    requires Partition(p) && o < |p.paths| && p.paths[o] != []
    ensures TopSlot(p, o) < |p.place| && TopSlot(p, o) !in p.free && TopSlot(p, o) !in p.paths[o][..|p.paths[o]| - 1]
    ensures forall b :: 0 <= b < |p.paths| && b != o ==> TopSlot(p, o) !in p.paths[b]
  {
    assert PathAt(p, o, |p.paths[o]| - 1);
    OneUse(p, o, |p.paths[o]| - 1);
  }

  /** What the popped slot holds afterwards. */
  function Emptied(p: Plan, i: nat): Option<Frame> {
    if i + 1 == |p.place| then None else Some(Frame(Vacant, Link(p.free, |p.free|)))
  }

  lemma FreeLonger(cells: seq<Option<Frame>>, p: Plan, i: nat)
    requires Chain(cells, p.free, Vacancies(|p.free|)) && i < |cells| && i !in p.free
    ensures var more := if i + 1 == |p.place| then p.free else p.free + [i];
      Chain(cells[i := Emptied(p, i)], more, Vacancies(|more|))
  {
    if i + 1 == |p.place| {
      ChainKept(cells, p.free, Vacancies(|p.free|), i, None);
    } else {
      ChainLonger(cells, p.free, Vacancies(|p.free|), i, Vacant);
      assert Vacancies(|p.free|) + [Vacant] == Vacancies(|p.free| + 1);
    }
  }

  lemma DroppedParts(p: Plan, o: nat)
    requires o < |p.paths| && p.paths[o] != []
    ensures var i, q := TopSlot(p, o), Dropped(p, o);
      && q.paths == p.paths[o := p.paths[o][..|p.paths[o]| - 1]]
      && q.free == (if i + 1 == |p.place| then p.free else p.free + [i])
      && |q.place| == (if i + 1 == |p.place| then i else |p.place|)
  {
  }

  lemma EmptiedTail(p: Plan, i: nat)
    ensures i + 1 == |p.place| ==> Emptied(p, i).None?
  {
  }

  lemma DroppedSpells(cells: seq<Option<Frame>>, p: Plan, stacks: seq<seq<FrameKind>>, o: nat)
    requires Partition(p) && Spells(cells, p, stacks) && o < |p.paths| && p.paths[o] != []
    ensures |stacks[o]| == |p.paths[o]| && TopSlot(p, o) < |cells|
    ensures var i := TopSlot(p, o);
      Spells(cells[i := Emptied(p, i)], Dropped(p, o), stacks[o := stacks[o][..|p.paths[o]| - 1]])
  {
    hide Chain, Partition, Link, Vacancies, Emptied, Dropped;
    var i := TopSlot(p, o);
    DroppedParts(p, o);
    EmptiedTail(p, i);
    TopSlotUse(p, o);
    FreeLonger(cells, p, i);
    ChainSizes(cells, p.paths[o], stacks[o]);
    ChainShorter(cells, p.paths[o], stacks[o], Emptied(p, i));
    forall a | 0 <= a < |p.paths| && a != o ensures Chain(cells[i := Emptied(p, i)], p.paths[a], stacks[a]) {
      ChainKept(cells, p.paths[a], stacks[a], i, Emptied(p, i));
    }
  }

  lemma ChainSizes(cells: seq<Option<Frame>>, path: seq<nat>, kinds: seq<FrameKind>)
    requires Chain(cells, path, kinds)
    ensures |kinds| == |path| && forall d :: 0 <= d < |path| ==> path[d] < |cells|
  {
  }

  // ----- what a whole transition does to the plan -----

  /** Stack `o` takes slots until it holds `n` entries. */
  function Lengthened(p: Plan, o: nat, n: nat): Plan
    decreases if o < |p.paths| then n - |p.paths[o]| else 0
  {
    if o >= |p.paths| || n <= |p.paths[o]| then p else Lengthened(Taken(p, o), o, n)
  }

  function Shortened(p: Plan, o: nat): Plan { if o >= |p.paths| || p.paths[o] == [] then p else Dropped(p, o) }

  /** Stack `o` first gives up its top slot if it is `popped`, and then grows to `n` entries. */
  function Replanned(p: Plan, o: nat, popped: bool, n: nat): Plan {
    Lengthened(if popped then Shortened(p, o) else p, o, n)
  }

  lemma LengthenedSame(p: Plan, o: nat, n: nat)
    requires o < |p.paths| ==> n <= |p.paths[o]|
    ensures Lengthened(p, o, n) == p
  {
  }

  lemma {:induction false} LengthenedTwice(p: Plan, o: nat, n: nat, more: nat)
    requires n <= more
    ensures Lengthened(Lengthened(p, o, n), o, more) == Lengthened(p, o, more)
    decreases if o < |p.paths| then n - |p.paths[o]| else 0
  {
    if o < |p.paths| && |p.paths[o]| < n {
      LengthenedTwice(Taken(p, o), o, n, more);
    }
  }

  // ----- the live frames in slot order -----

  function Live(cell: Option<Frame>): seq<FrameKind> {
    if cell.Some? && !cell.value.kind.Vacant? then [cell.value.kind] else []
  }

  function Kinds(cells: seq<Option<Frame>>): seq<FrameKind> {
    if cells == [] then [] else Kinds(cells[..|cells| - 1]) + Live(cells[|cells| - 1])
  }

  /** The frames the slots hold according to the plan, in slot order. */
  function Listed(place: seq<Place>, stacks: seq<seq<FrameKind>>): seq<FrameKind> {
    if place == [] then []
    else
      var last := place[|place| - 1];
      Listed(place[..|place| - 1], stacks) +
      if last.Held? && last.owner < |stacks| && last.depth < |stacks[last.owner]|
      then [stacks[last.owner][last.depth]] else []
  }

  /** The pool in slot order is determined by the plan and the stacks. */
  lemma KindsListed(cells: seq<Option<Frame>>, p: Plan, stacks: seq<seq<FrameKind>>)
    requires Sound(cells, p, stacks)
    ensures Kinds(cells) == Listed(p.place, stacks)
  {
    KindsTail(cells, |p.place|);
    KindsPrefix(cells, p, stacks, |p.place|);
    assert p.place[..|p.place|] == p.place;
  }

  lemma {:induction false} KindsTail(cells: seq<Option<Frame>>, n: nat)
    requires n <= |cells| && forall i :: n <= i < |cells| ==> cells[i].None?
    ensures Kinds(cells) == Kinds(cells[..n])
    decreases |cells|
  {
    if n == |cells| {
      assert cells[..n] == cells;
    } else {
      KindsTail(cells[..|cells| - 1], n);
      assert cells[..|cells| - 1][..n] == cells[..n];
    }
  }

  lemma {:induction false} KindsPrefix(cells: seq<Option<Frame>>, p: Plan, stacks: seq<seq<FrameKind>>, n: nat)
    requires Sound(cells, p, stacks) && n <= |p.place|
    ensures n <= |cells| && Kinds(cells[..n]) == Listed(p.place[..n], stacks)
    decreases n
  {
    Sizes(cells, p, stacks);
    if n > 0 {
      hide Sound, Total;
      KindsPrefix(cells, p, stacks, n - 1);
      CellAt(cells, p, stacks, n - 1);
      assert cells[..n][..n - 1] == cells[..n - 1] && p.place[..n][..n - 1] == p.place[..n - 1];
    }
  }

  /** What a slot in use holds. */
  lemma CellAt(cells: seq<Option<Frame>>, p: Plan, stacks: seq<seq<FrameKind>>, i: nat)
    requires Sound(cells, p, stacks) && i < |p.place|
    ensures i < |cells|
    ensures match p.place[i]
      case Held(o, d) => o < |stacks| && d < |stacks[o]| && Live(cells[i]) == [stacks[o][d]]
      case Loose(_) => Live(cells[i]) == []
  {
    assert PlaceAt(p, i);
    match p.place[i]
    case Held(o, d) => assert Chain(cells, p.paths[o], stacks[o]) && Solid(stacks[o]);
    case Loose(k) => assert Vacancies(|p.free|)[k] == Vacant;
  }

  /** How often `x` is live in the array, and how often it is on the stacks. */
  ghost function Tally(cells: seq<Option<Frame>>, x: FrameKind): nat {
    if cells == [] then 0
    else Tally(cells[..|cells| - 1], x) + (if Live(cells[|cells| - 1]) == [x] then 1 else 0)
  }

  ghost function Count(row: seq<FrameKind>, x: FrameKind): nat {
    if row == [] then 0 else Count(row[..|row| - 1], x) + (if row[|row| - 1] == x then 1 else 0)
  }

  ghost function Counts(stacks: seq<seq<FrameKind>>, x: FrameKind): nat {
    if stacks == [] then 0 else Counts(stacks[..|stacks| - 1], x) + Count(stacks[|stacks| - 1], x)
  }

  lemma {:induction false} TallySet(cells: seq<Option<Frame>>, i: nat, cell: Option<Frame>, x: FrameKind)
    requires i < |cells|
    ensures Tally(cells[i := cell], x) + (if Live(cells[i]) == [x] then 1 else 0)
         == Tally(cells, x) + (if Live(cell) == [x] then 1 else 0)
  {
    var last := |cells| - 1;
    if i == last {
      assert cells[i := cell][..last] == cells[..last];
    } else {
      assert cells[i := cell][..last] == cells[..last][i := cell];
      TallySet(cells[..last], i, cell, x);
    }
  }

  lemma {:induction false} CountsSet(stacks: seq<seq<FrameKind>>, o: nat, row: seq<FrameKind>, x: FrameKind)
    requires o < |stacks|
    ensures Counts(stacks[o := row], x) + Count(stacks[o], x) == Counts(stacks, x) + Count(row, x)
  {
    var last := |stacks| - 1;
    if o == last {
      assert stacks[o := row][..last] == stacks[..last];
    } else {
      assert stacks[o := row][..last] == stacks[..last][o := row];
      CountsSet(stacks[..last], o, row, x);
    }
  }

  lemma CountPush(row: seq<FrameKind>, kind: FrameKind, x: FrameKind)
    ensures Count(row + [kind], x) == Count(row, x) + (if kind == x then 1 else 0)
  {
    assert (row + [kind])[..|row|] == row;
  }

  /** The live frames of the array are the frames of the stacks. */
  ghost predicate Accounts(cells: seq<Option<Frame>>, stacks: seq<seq<FrameKind>>) {
    && (forall x :: Tally(cells, x) == Counts(stacks, x))
    && (forall o :: 0 <= o < |stacks| ==> Solid(stacks[o]))
  }

  ghost predicate Solid(row: seq<FrameKind>) { forall d :: 0 <= d < |row| ==> !row[d].Vacant? }

  lemma TakenAccounts(cells: seq<Option<Frame>>, i: nat, stacks: seq<seq<FrameKind>>, o: nat, kind: FrameKind,
      previous: nat)
    requires Accounts(cells, stacks) && o < |stacks| && !kind.Vacant? && i < |cells| && Live(cells[i]) == []
    ensures Accounts(cells[i := Some(Frame(kind, previous))], stacks[o := stacks[o] + [kind]])
  {
    hide Tally, Counts, Count;
    var after, more := cells[i := Some(Frame(kind, previous))], stacks[o := stacks[o] + [kind]];
    forall x ensures Tally(after, x) == Counts(more, x) {
      TallySet(cells, i, Some(Frame(kind, previous)), x);
      CountsSet(stacks, o, stacks[o] + [kind], x);
      CountPush(stacks[o], kind, x);
      assert Tally(cells, x) == Counts(stacks, x);
    }
  }

  lemma DroppedAccounts(cells: seq<Option<Frame>>, i: nat, stacks: seq<seq<FrameKind>>, o: nat, cell: Option<Frame>)
    requires Accounts(cells, stacks) && o < |stacks| && stacks[o] != [] && i < |cells|
    requires Live(cells[i]) == [stacks[o][|stacks[o]| - 1]] && Live(cell) == []
    ensures Accounts(cells[i := cell], stacks[o := stacks[o][..|stacks[o]| - 1]])
  {
    hide Tally, Counts, Count;
    var d := |stacks[o]| - 1;
    var after, less := cells[i := cell], stacks[o := stacks[o][..d]];
    assert stacks[o][..d] + [stacks[o][d]] == stacks[o];
    forall x ensures Tally(after, x) == Counts(less, x) {
      TallySet(cells, i, cell, x);
      CountsSet(stacks, o, stacks[o][..d], x);
      CountPush(stacks[o][..d], stacks[o][d], x);
      assert Tally(cells, x) == Counts(stacks, x);
    }
  }

  lemma {:induction false} TallyEmpty(cells: seq<Option<Frame>>, x: FrameKind)
    requires forall i :: 0 <= i < |cells| ==> cells[i].None?
    ensures Tally(cells, x) == 0
  {
    if cells != [] {
      TallyEmpty(cells[..|cells| - 1], x);
    }
  }

  lemma {:induction false} CountsEmpty(stacks: seq<seq<FrameKind>>, x: FrameKind)
    requires forall o :: 0 <= o < |stacks| ==> stacks[o] == []
    ensures Counts(stacks, x) == 0
  {
    if stacks != [] {
      CountsEmpty(stacks[..|stacks| - 1], x);
    }
  }

  lemma {:induction false} TotalEmpty<T>(rows: seq<seq<T>>)
    requires forall o :: 0 <= o < |rows| ==> rows[o] == []
    ensures Total(rows) == 0
  {
    if rows != [] {
      TotalEmpty(rows[..|rows| - 1]);
    }
  }

  /** The plan of an arena nobody has used. */
  function Blank(owners: nat): Plan { Plan(seq(owners, _ => []), [], []) }

  function Bare(owners: nat): seq<seq<FrameKind>> { seq(owners, _ => []) }

  lemma BlankOk(cells: seq<Option<Frame>>, owners: nat)
    requires forall i :: 0 <= i < |cells| ==> cells[i].None?
    ensures Partition(Blank(owners)) && Spells(cells, Blank(owners), Bare(owners)) && Accounts(cells, Bare(owners))
  {
    TotalEmpty(Blank(owners).paths);
    forall x ensures Tally(cells, x) == Counts(Bare(owners), x) {
      TallyEmpty(cells, x);
      CountsEmpty(Bare(owners), x);
    }
  }

  /** `n` pushes in a row succeed on a stack of this depth with this much room. */
  predicate Pushable(depth: nat, available: int, n: nat, maxDepth: nat)
    decreases n
  {
    n == 0 || (depth < maxDepth && available > 0 && Pushable(depth + 1, available - 1, n - 1, maxDepth))
  }

  /** A check for `n` frames succeeds exactly when `n` pushes in a row do. */
  lemma {:induction false} CheckForetells(depth: nat, available: nat, n: nat, maxDepth: nat)
    requires depth <= maxDepth
    ensures Pushable(depth, available, n, maxDepth) <==> depth + n <= maxDepth && n <= available
    decreases n
  {
    if n > 0 && depth < maxDepth && available > 0 {
      CheckForetells(depth + 1, available - 1, n - 1, maxDepth);
    }
  }

  // ----- the pool -----

  ghost predicate Sound(cells: seq<Option<Frame>>, p: Plan, stacks: seq<seq<FrameKind>>) {
    |cells| <= U32_MAX && Partition(p) && Spells(cells, p, stacks) && Accounts(cells, stacks)
  }

  lemma PushKeeps(cells: seq<Option<Frame>>, p: Plan, stacks: seq<seq<FrameKind>>, o: nat, kind: FrameKind)
    requires Sound(cells, p, stacks) && o < |p.paths| && !kind.Vacant? && (p.free == [] ==> |p.place| < |cells|)
    ensures var cell := Some(Frame(kind, Head(p.paths[o]).top));
      |stacks| == |p.paths| && NextSlot(p) < |cells|
        && Sound(cells[NextSlot(p) := cell], Taken(p, o), stacks[o := stacks[o] + [kind]])
  {
    TakenPartition(p, o);
    TakenSpells(cells, p, stacks, o, kind);
    assert Live(cells[NextSlot(p)]) == [];
    hide Partition, Spells, Accounts;
    TakenAccounts(cells, NextSlot(p), stacks, o, kind, Head(p.paths[o]).top);
  }

  lemma PopKeeps(cells: seq<Option<Frame>>, p: Plan, stacks: seq<seq<FrameKind>>, o: nat)
    requires Sound(cells, p, stacks) && o < |p.paths| && p.paths[o] != []
    ensures |stacks| == |p.paths| && |stacks[o]| == |p.paths[o]| && TopSlot(p, o) < |cells|
    ensures var i := TopSlot(p, o);
      Sound(cells[i := Emptied(p, i)], Dropped(p, o), stacks[o := stacks[o][..|stacks[o]| - 1]])
  {
    DroppedPartition(p, o);
    DroppedSpells(cells, p, stacks, o);
    TopFrame(cells, p, stacks, o);
    hide Partition, Spells, Accounts;
    DroppedAccounts(cells, TopSlot(p, o), stacks, o, Emptied(p, TopSlot(p, o)));
  }

  /** The slot on top of a stack holds its top frame and the link to the one below. */
  lemma TopFrame(cells: seq<Option<Frame>>, p: Plan, stacks: seq<seq<FrameKind>>, o: nat)
    requires Sound(cells, p, stacks) && o < |p.paths| && p.paths[o] != []
    ensures var d := |p.paths[o]| - 1;
      && |stacks| == |p.paths| && |stacks[o]| == d + 1 && TopSlot(p, o) < |cells| && TopSlot(p, o) < |p.place|
      && cells[TopSlot(p, o)] == Some(Frame(stacks[o][d], Link(p.paths[o], d))) && !stacks[o][d].Vacant?
  {
    TopSlotUse(p, o);
    assert Chain(cells, p.paths[o], stacks[o]) && Solid(stacks[o]);
  }

  /** The head of the free list is vacant and links to the rest of it. */
  lemma FreeFrame(cells: seq<Option<Frame>>, p: Plan, stacks: seq<seq<FrameKind>>)
    requires Sound(cells, p, stacks)
    ensures p.free == [] <==> Link(p.free, |p.free|) == NONE
    ensures p.free != [] ==>
      var k := |p.free| - 1;
      && p.free[k] < |cells| && cells[p.free[k]] == Some(Frame(Vacant, Link(p.free, k)))
      && Link(p.free, k) == Link(p.free[..k], k)
  {
  }

  lemma Sizes(cells: seq<Option<Frame>>, p: Plan, stacks: seq<seq<FrameKind>>)
    requires Sound(cells, p, stacks)
    ensures Total(p.paths) + |p.free| == |p.place| <= |cells| && |stacks| == |p.paths|
    ensures forall o :: 0 <= o < |stacks| ==> |stacks[o]| == |p.paths[o]|
  {
    forall o | 0 <= o < |stacks| ensures |stacks[o]| == |p.paths[o]| {
      assert Chain(cells, p.paths[o], stacks[o]);
    }
  }

  class FramePool {
    const slots: array<Option<Frame>>
    var nextUnused: nat
    var freeHead: nat
    var freeCount: nat

    /** How the slots are used, and what the stack of every owner holds, bottom first. */
    ghost var plan: Plan
    ghost var stacks: seq<seq<FrameKind>>

    ghost predicate Valid()
      reads this, slots
    {
      && Sound(slots[..], plan, stacks)
      && nextUnused == |plan.place| && freeCount == |plan.free| && freeHead == Link(plan.free, |plan.free|)
    }

    /** `stack` is the handle of owner `o`. */
    ghost predicate Owns(o: nat, stack: Stack)
      reads this
    {
      o < |plan.paths| && stack == Head(plan.paths[o])
    }

    /** Slots a push can still take. */
    ghost function Available(): int
      reads this, slots
    {
      slots.Length - nextUnused + freeCount
    }

    constructor (storage: array<Option<Frame>>, ghost owners: nat)
      requires storage.Length <= U32_MAX
      modifies storage
      ensures Valid() && slots == storage && Available() == storage.Length
      ensures plan == Blank(owners) && stacks == Bare(owners) && forall o: nat :: o < owners ==> Owns(o, Stack(NONE, 0))
    {
      slots, nextUnused, freeHead, freeCount := storage, 0, NONE, 0;
      plan, stacks := Blank(owners), Bare(owners);
      new;
      for i := 0 to storage.Length
        invariant slots == storage && nextUnused == 0 && freeHead == NONE && freeCount == 0
        invariant plan == Blank(owners) && stacks == Bare(owners)
        invariant forall k :: 0 <= k < i ==> storage[k].None?
      {
        storage[i] := None;
      }
      BlankOk(slots[..], owners);
    }

    /** Take over slots that already spell out a plan. */
    constructor FromMeta(
      storage: array<Option<Frame>>, nextUnused: nat, freeHead: nat, freeCount: nat,
      ghost plan: Plan, ghost stacks: seq<seq<FrameKind>>)
      requires Sound(storage[..], plan, stacks)
      requires nextUnused == |plan.place| && freeCount == |plan.free| && freeHead == Link(plan.free, |plan.free|)
      ensures Valid() && slots == storage && this.plan == plan && this.stacks == stacks
      ensures this.nextUnused == nextUnused && this.freeHead == freeHead && this.freeCount == freeCount
    {
      slots, this.nextUnused, this.freeHead, this.freeCount := storage, nextUnused, freeHead, freeCount;
      this.plan, this.stacks := plan, stacks;
    }

    /** The frames in use are those of the stacks, and the counters account for all of them. */
    lemma Balance()
      requires Valid()
      ensures Total(plan.paths) + freeCount == nextUnused <= slots.Length
        && Available() == slots.Length - Total(plan.paths)
      ensures |stacks| == |plan.paths| && forall o :: 0 <= o < |stacks| ==> |stacks[o]| == |plan.paths[o]|
    {
      Sizes(slots[..], plan, stacks);
    }

    /** Whether `count` more frames fit the owner's depth and the pool. */
    method Check(stack: Stack, count: nat, maxDepth: nat) returns (ok: bool)
      requires Valid()
      ensures ok <==> stack.depth + count <= maxDepth && count <= Available()
    {
      var available := slots.Length - nextUnused + freeCount;
      ok := stack.depth + count <= maxDepth && count <= available;
    }

    /** Push `kind` on the stack of `o`; on failure nothing changes. */
    method Push(ghost o: nat, stack: Stack, kind: FrameKind, maxDepth: nat) returns (ok: bool, out: Stack)
      requires Valid() && Owns(o, stack) && !kind.Vacant?
      modifies this, slots
      ensures Valid()
      ensures ok <==> stack.depth < maxDepth && old(Available()) > 0
      ensures !ok ==> out == stack && plan == old(plan) && stacks == old(stacks)
      ensures ok ==>
        && plan == Taken(old(plan), o) && plan.paths == old(plan.paths)[o := old(plan.paths[o]) + [out.top]]
          && Owns(o, out)
        && stacks == old(stacks)[o := old(stacks[o]) + [kind]]
      ensures Available() == old(Available()) - if ok then 1 else 0
    {
      hide Sound;
      FreeFrame(slots[..], plan, stacks);
      Balance();
      out := stack;
      if stack.depth >= maxDepth {
        return false, out;
      }
      var index;
      ghost var was, before := slots[..], plan;
      if freeHead == NONE {
        if nextUnused >= slots.Length {
          return false, out;
        }
        index := nextUnused;
        nextUnused := nextUnused + 1;
      } else {
        index := freeHead;
        freeHead := slots[index].value.previous;
        freeCount := freeCount - 1;
      }
      slots[index] := Some(Frame(kind, stack.top));
      plan, stacks := Taken(plan, o), stacks[o := stacks[o] + [kind]];
      out := Stack(index, stack.depth + 1);
      ok := true;
      assert slots[..] == was[index := Some(Frame(kind, stack.top))];
      PushKeeps(was, before, old(stacks), o, kind);
    }

    /** Push frames one after another until one does not fit: they all do exactly when `Pushable`
        says so. */
    method PushAll(ghost o: nat, stack: Stack, kinds: seq<FrameKind>, maxDepth: nat) returns (n: nat, out: Stack)
      requires Valid() && Owns(o, stack) && o < |stacks| && forall k :: 0 <= k < |kinds| ==> !kinds[k].Vacant?
      modifies this, slots
      ensures Valid() && Owns(o, out) && n <= |kinds| && stacks == old(stacks)[o := old(stacks[o]) + kinds[..n]]
      ensures n == |kinds| <==> Pushable(stack.depth, old(Available()), |kinds|, maxDepth)
    {
      hide Sound;
      n, out := 0, stack;
      assert stacks[o] + kinds[..0] == stacks[o] && stacks[o := stacks[o]] == stacks;
      while n < |kinds|
        invariant Valid() && Owns(o, out) && n <= |kinds| && out.depth == stack.depth + n
        invariant stacks == old(stacks)[o := old(stacks[o]) + kinds[..n]]
        invariant Pushable(stack.depth, old(Available()), |kinds|, maxDepth) <==>
          Pushable(out.depth, Available(), |kinds| - n, maxDepth)
      {
        var ok;
        ok, out := Push(o, out, kinds[n], maxDepth);
        if !ok {
          return;
        }
        assert old(stacks[o]) + kinds[..n] + [kinds[n]] == old(stacks[o]) + kinds[..n + 1];
        n := n + 1;
      }
    }

    /** Pop the stack of `o`; an empty stack is left alone. */
    method Pop(ghost o: nat, stack: Stack) returns (kind: Option<FrameKind>, out: Stack)
      requires Valid() && Owns(o, stack)
      modifies this, slots
      ensures Valid() && Owns(o, out)
      ensures kind.None? <==> old(stacks[o]) == []
      ensures kind.None? ==> plan == old(plan) && stacks == old(stacks)
      ensures kind.Some? ==>
        var d := |old(stacks[o])| - 1;
        && kind.value == old(stacks[o])[d]
        && stacks == old(stacks)[o := old(stacks[o])[..d]]
        && |old(plan.paths[o])| == d + 1 && plan == Dropped(old(plan), o)
          && plan.paths == old(plan.paths)[o := old(plan.paths[o])[..d]]
      ensures Available() == old(Available()) + if kind.Some? then 1 else 0
    {
      hide Sound;
      Balance();
      out := stack;
      if stack.depth == 0 {
        return None, out;
      }
      ghost var was, before := slots[..], plan;
      var index := stack.top;
      TopFrame(slots[..], plan, stacks, o);
      LinkPrefix(plan.paths[o], |plan.paths[o]| - 1);
      var frame := slots[index].value;
      kind := Some(frame.kind);
      out := Stack(frame.previous, stack.depth - 1);
      if index + 1 == nextUnused {
        slots[index] := None;
        nextUnused := nextUnused - 1;
      } else {
        slots[index] := Some(Frame(Vacant, freeHead));
        freeHead := index;
        freeCount := freeCount + 1;
      }
      plan, stacks := Dropped(plan, o), stacks[o := stacks[o][..|stacks[o]| - 1]];
      assert slots[..] == was[index := Emptied(before, index)];
      PopKeeps(was, before, old(stacks), o);
    }
  }
}
