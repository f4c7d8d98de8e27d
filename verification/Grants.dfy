/** Request grants in canonical order. Models `compile_grants` of
    crates/xolotl-daemon/src/federation_catalog.rs. */
module Grants {
  import opened Program
  import opened Bytes
  import opened Contract

  const MAX_GRANTS_PER_METHOD: nat := 64

  datatype Flag = CloneFlag | TransferFlag | SpawnWithFlag | DelegateFlag

  datatype Config = Config(selector: Text, allMethods: bool, methods: seq<Text>, flags: seq<Flag>)

  datatype Failure = TooMany | Mixed | BadSelector | DuplicateFlag | Empty | DuplicateGrant

  // ----- the order of grants -----

  predicate LessTexts(a: seq<Text>, b: seq<Text>) {
    if a == [] then b != []
    else b != [] && (Less(a[0], b[0]) || (a[0] == b[0] && LessTexts(a[1..], b[1..])))
  }

  predicate Precedes(g: Grant, h: Grant) {
    || Less(g.selector, h.selector)
    || (g.selector == h.selector &&
        (|| g.mode < h.mode
         || (g.mode == h.mode && (LessTexts(g.methods, h.methods) || (g.methods == h.methods && g.flags < h.flags)))))
  }

  lemma {:induction false} LessTextsTransitive(a: seq<Text>, b: seq<Text>, c: seq<Text>)
    requires LessTexts(a, b) && LessTexts(b, c)
    ensures LessTexts(a, c)
  {
    if a != [] {
      LessIrreflexive(a[0]);
      if a[0] == b[0] == c[0] {
        LessTextsTransitive(a[1..], b[1..], c[1..]);
      } else if Less(a[0], b[0]) && Less(b[0], c[0]) {
        LessTransitive(a[0], b[0], c[0]);
      }
    }
  }

  lemma {:induction false} LessTextsTotal(a: seq<Text>, b: seq<Text>)
    ensures a == b || LessTexts(a, b) || LessTexts(b, a)
    ensures !LessTexts(a, a)
  {
    if a != [] {
      LessIrreflexive(a[0]);
      LessTextsTotal(a[1..], a[1..]);
      if b != [] {
        LessTotal(a[0], b[0]);
        if a[0] == b[0] {
          LessTextsTotal(a[1..], b[1..]);
          assert a == [a[0]] + a[1..] && b == [b[0]] + b[1..];
        }
      }
    }
  }

  lemma PrecedesTransitive(a: Grant, b: Grant, c: Grant)
    requires Precedes(a, b) && Precedes(b, c)
    ensures Precedes(a, c)
  {
    if Less(a.selector, b.selector) && Less(b.selector, c.selector) {
      LessTransitive(a.selector, b.selector, c.selector);
    } else if LessTexts(a.methods, b.methods) && LessTexts(b.methods, c.methods) {
      LessTextsTransitive(a.methods, b.methods, c.methods);
    }
  }

  lemma PrecedesTotal(a: Grant, b: Grant)
    ensures a == b || Precedes(a, b) || Precedes(b, a)
    ensures !Precedes(a, a)
  {
    LessTotal(a.selector, b.selector);
    LessIrreflexive(a.selector);
    LessTextsTotal(a.methods, b.methods);
    LessTextsTotal(a.methods, a.methods);
  }

  // ----- one grant -----

  function Bit(flag: Flag): nat {
    match flag
    case CloneFlag => 1
    case TransferFlag => 2
    case SpawnWithFlag => 4
    case DelegateFlag => 8
  }

  /** The union of distinct flags. */
  function Bits(flags: seq<Flag>): nat {
    if flags == [] then 0 else Bits(flags[..|flags| - 1]) + Bit(flags[|flags| - 1])
  }

  /** Insert a name into an ascending list, once. */
  function InsertName(names: seq<Text>, x: Text): seq<Text> {
    if names == [] || Less(x, names[0]) then [x] + names
    else if names[0] == x then names
    else [names[0]] + InsertName(names[1..], x)
  }

  /** Names in ascending order without repeats. */
  function Names(names: seq<Text>): seq<Text> {
    if names == [] then [] else InsertName(Names(names[..|names| - 1]), names[|names| - 1])
  }

  predicate Repeats(flags: seq<Flag>) { exists i, j :: 0 <= i < j < |flags| && flags[i] == flags[j] }

  /** The canonical form of one configured grant; `parse` stands for the selector parser. */
  function Canonical(parse: Text -> Option<Text>, item: Config): Result<Grant, Failure> {
    if item.allMethods && item.methods != [] then Err(Mixed)
    else if parse(item.selector).None? then Err(BadSelector)
    else if Repeats(item.flags) then Err(DuplicateFlag)
    else if !item.allMethods && item.methods == [] && item.flags == [] then Err(Empty)
    else Ok(Grant(parse(item.selector).value, if item.allMethods then 1 else 0, Names(item.methods), Bits(item.flags)))
  }

  // ----- all grants -----

  function Insert(gs: seq<Grant>, g: Grant): seq<Grant> {
    if gs == [] || Precedes(g, gs[0]) then [g] + gs else [gs[0]] + Insert(gs[1..], g)
  }

  function Sorted(gs: seq<Grant>): seq<Grant> {
    if gs == [] then [] else Insert(Sorted(gs[..|gs| - 1]), gs[|gs| - 1])
  }

  predicate Ascending(gs: seq<Grant>) {
    forall i, j :: 0 <= i < j < |gs| ==> gs[i] == gs[j] || Precedes(gs[i], gs[j])
  }

  predicate Strict(gs: seq<Grant>) { forall i, j :: 0 <= i < j < |gs| ==> Precedes(gs[i], gs[j]) }

  function Elements(gs: seq<Grant>): set<Grant> { set g | g in gs }

  lemma {:induction false} InsertHolds(gs: seq<Grant>, g: Grant)
    ensures Elements(Insert(gs, g)) == Elements(gs) + {g} && |Insert(gs, g)| == |gs| + 1
  {
    if gs != [] && !Precedes(g, gs[0]) {
      InsertHolds(gs[1..], g);
      assert gs == [gs[0]] + gs[1..];
      assert Elements(gs) == {gs[0]} + Elements(gs[1..]);
      assert Elements([gs[0]] + Insert(gs[1..], g)) == {gs[0]} + Elements(Insert(gs[1..], g));
    } else {
      assert Elements([g] + gs) == {g} + Elements(gs);
    }
  }

  lemma {:induction false} InsertAscends(gs: seq<Grant>, g: Grant)
    requires Ascending(gs)
    ensures Ascending(Insert(gs, g))
  {
    if gs == [] {
    } else if Precedes(g, gs[0]) {
      forall j | 0 <= j < |gs| ensures Precedes(g, gs[j]) {
        if j > 0 && gs[0] != gs[j] {
          PrecedesTransitive(g, gs[0], gs[j]);
        }
      }
    } else {
      PrecedesTotal(g, gs[0]);
      InsertAscends(gs[1..], g);
      InsertHolds(gs[1..], g);
      var rest := Insert(gs[1..], g);
      hide Precedes, Insert;
      forall j | 0 <= j < |rest| ensures gs[0] == rest[j] || Precedes(gs[0], rest[j]) {
        assert rest[j] in Elements(rest);
        assert rest[j] == g || rest[j] in gs[1..];
      }
      Headed(gs[0], rest);
    }
  }

  lemma Headed(g: Grant, rest: seq<Grant>)
    requires Ascending(rest) && forall j :: 0 <= j < |rest| ==> g == rest[j] || Precedes(g, rest[j])
    ensures Ascending([g] + rest)
  {
    hide Precedes;
  }

  lemma {:induction false} SortedKeeps(gs: seq<Grant>)
    ensures Ascending(Sorted(gs)) && Elements(Sorted(gs)) == Elements(gs) && |Sorted(gs)| == |gs|
  {
    if gs != [] {
      var n := |gs| - 1;
      SortedKeeps(gs[..n]);
      InsertAscends(Sorted(gs[..n]), gs[n]);
      InsertHolds(Sorted(gs[..n]), gs[n]);
      assert gs == gs[..n] + [gs[n]];
      assert Elements(gs) == Elements(gs[..n]) + {gs[n]};
    }
  }

  predicate Unique(gs: seq<Grant>) { forall i, j :: 0 <= i < j < |gs| ==> gs[i] != gs[j] }

  /** A list has no repeats exactly when it has as many elements as entries. */
  lemma {:induction false} UniqueSize(gs: seq<Grant>)
    ensures |Elements(gs)| <= |gs| && (Unique(gs) <==> |Elements(gs)| == |gs|)
  {
    if gs != [] {
      var n := |gs| - 1;
      var less, last := gs[..n], gs[n];
      UniqueSize(less);
      assert gs == less + [last];
      assert Elements(gs) == Elements(less) + {last};
      if last in less {
        assert Elements(gs) == Elements(less);
        var i :| 0 <= i < n && less[i] == last;
        assert gs[i] == gs[n];
      } else {
        assert Unique(gs) <==> Unique(less) by {
          if Unique(less) {
            forall i | 0 <= i < n ensures gs[i] != last {
              assert gs[i] == less[i];
            }
          } else {
            var i, j :| 0 <= i < j < n && less[i] == less[j];
            assert gs[i] == gs[j];
          }
        }
      }
    }
  }

  /** Ascending lists without repeats are strictly ascending, and determined by their elements. */
  lemma {:induction false} StrictDetermined(a: seq<Grant>, b: seq<Grant>)
    requires Strict(a) && Strict(b) && Elements(a) == Elements(b)
    ensures a == b
  {
    NoElements(a);
    NoElements(b);
    if a != [] {
      assert a[0] in Elements(a) && a[0] in b;
      assert b[0] in Elements(b) && b[0] in a;
      Leaders(a, b);
      Rest(a);
      Rest(b);
      StrictDetermined(a[1..], b[1..]);
      assert a == [a[0]] + a[1..] && b == [b[0]] + b[1..];
    }
  }

  lemma NoElements(gs: seq<Grant>)
    ensures Elements(gs) == {} <==> gs == []
  {
    if gs != [] {
      assert gs[0] in Elements(gs);
    }
  }

  lemma Leaders(a: seq<Grant>, b: seq<Grant>)
    requires Strict(a) && Strict(b) && a != [] && b != [] && a[0] in b && b[0] in a
    ensures a[0] == b[0]
  {
    hide Precedes;
    if a[0] != b[0] {
      assert Precedes(a[0], b[0]) && Precedes(b[0], a[0]);
      PrecedesTransitive(a[0], b[0], a[0]);
      PrecedesTotal(a[0], a[0]);
    }
  }

  lemma Rest(a: seq<Grant>)
    requires Strict(a) && a != []
    ensures Strict(a[1..]) && Elements(a[1..]) == Elements(a) - {a[0]}
  {
    hide Precedes;
    assert a == [a[0]] + a[1..];
    if a[0] in a[1..] {
      var i :| 0 <= i < |a[1..]| && a[1..][i] == a[0];
      assert Precedes(a[0], a[i + 1]);
      PrecedesTotal(a[0], a[0]);
    }
  }

  // ----- the program -----

  /** The canonical forms of the configured grants, in their order. */
  ghost function Forms(parse: Text -> Option<Text>, config: seq<Config>): seq<Grant>
    requires forall i :: 0 <= i < |config| ==> Canonical(parse, config[i]).Ok?
  {
    seq(|config|, i requires 0 <= i < |config| => Canonical(parse, config[i]).value)
  }

  ghost predicate AllOk(parse: Text -> Option<Text>, config: seq<Config>) {
    forall i :: 0 <= i < |config| ==> Canonical(parse, config[i]).Ok?
  }

  /** Grants that compile: few enough, each well formed, and no two alike. */
  ghost predicate Compiles(parse: Text -> Option<Text>, config: seq<Config>) {
    |config| <= MAX_GRANTS_PER_METHOD && AllOk(parse, config) && Unique(Forms(parse, config))
  }

  method CompileGrants(parse: Text -> Option<Text>, config: seq<Config>) returns (r: Result<seq<Grant>, Failure>)
    ensures r.Ok? <==> Compiles(parse, config)
    ensures r.Ok? ==> Strict(r.value) && Elements(r.value) == Elements(Forms(parse, config))
    ensures r.Err? ==>
      r.error == if |config| > MAX_GRANTS_PER_METHOD then TooMany
                 else if AllOk(parse, config) then DuplicateGrant
                 else FirstFailure(parse, config)
  {
    if |config| > MAX_GRANTS_PER_METHOD {
      return Err(TooMany);
    }
    var grants: seq<Grant> := [];
    for i := 0 to |config|
      invariant AllOk(parse, config[..i]) && grants == Forms(parse, config[..i])
      invariant !AllOk(parse, config) ==> FirstFailure(parse, config) == FirstFailure(parse, config[i..])
    {
      assert config[i..][0] == config[i] && config[i..][1..] == config[i + 1..];
      var form := Canonical(parse, config[i]);
      if form.Err? {
        return Err(form.error);
      }
      grants := grants + [form.value];
      assert config[..i + 1] == config[..i] + [config[i]];
    }
    assert config[..|config|] == config;
    SortedKeeps(grants);
    UniqueSize(grants);
    UniqueSize(Sorted(grants));
    grants := Sorted(grants);
    for i := 0 to |grants|
      invariant forall k :: 0 < k < i ==> grants[k - 1] != grants[k]
    {
      if i > 0 && grants[i - 1] == grants[i] {
        return Err(DuplicateGrant);
      }
    }
    NoNeighbours(grants);
    return Ok(grants);
  }

  /** The failure of the first ill-formed grant. */
  function FirstFailure(parse: Text -> Option<Text>, config: seq<Config>): Failure {
    if config == [] then Empty
    else if Canonical(parse, config[0]).Err? then Canonical(parse, config[0]).error
    else FirstFailure(parse, config[1..])
  }

  /** An ascending list without equal neighbours is strictly ascending. */
  lemma NoNeighbours(gs: seq<Grant>)
    requires Ascending(gs) && forall k :: 0 < k < |gs| ==> gs[k - 1] != gs[k]
    ensures Strict(gs) && Unique(gs)
  {
    forall i, j | 0 <= i < j < |gs| ensures Precedes(gs[i], gs[j]) && gs[i] != gs[j] {
      assert gs[i] != gs[i + 1];
      PrecedesTotal(gs[i], gs[i]);
      if i + 1 < j && gs[i + 1] != gs[j] {
        PrecedesTransitive(gs[i], gs[i + 1], gs[j]);
      }
    }
  }

  // ----- independence of the configured order -----

  lemma SameElements(parse: Text -> Option<Text>, a: seq<Config>, b: seq<Config>)
    requires multiset(a) == multiset(b)
    ensures |a| == |b| && (AllOk(parse, a) <==> AllOk(parse, b))
    ensures AllOk(parse, a) ==> Elements(Forms(parse, a)) == Elements(Forms(parse, b))
  {
    assert |multiset(a)| == |a| && |multiset(b)| == |b|;
    forall x ensures x in a <==> x in b {
      assert x in multiset(a) <==> x in multiset(b);
    }
    if AllOk(parse, a) {
      FormsIn(parse, a, b);
    }
    if AllOk(parse, b) {
      FormsIn(parse, b, a);
    }
  }

  lemma FormsIn(parse: Text -> Option<Text>, a: seq<Config>, b: seq<Config>)
    requires AllOk(parse, a) && forall x :: x in b ==> x in a
    ensures AllOk(parse, b) && Elements(Forms(parse, b)) <= Elements(Forms(parse, a))
  {
    forall j | 0 <= j < |b| ensures Canonical(parse, b[j]).Ok? && Canonical(parse, b[j]).value in Forms(parse, a) {
      assert b[j] in a;
      var i :| 0 <= i < |a| && a[i] == b[j];
      assert Forms(parse, a)[i] == Canonical(parse, a[i]).value;
    }
  }

  /** Grants configured in another order compile exactly alike, so the contract has the same bytes. */
  lemma OrderDoesNotMatter(parse: Text -> Option<Text>, a: seq<Config>, b: seq<Config>, x: seq<Grant>, y: seq<Grant>,
      c: Terms)
    requires multiset(a) == multiset(b)
    ensures Compiles(parse, a) <==> Compiles(parse, b)
    ensures Compiles(parse, a) && Strict(x) && Strict(y)
      && Elements(x) == Elements(Forms(parse, a)) && Elements(y) == Elements(Forms(parse, b))
      ==> x == y && Encode(c.(grants := x)) == Encode(c.(grants := y))
  {
    SameElements(parse, a, b);
    if AllOk(parse, a) {
      UniqueSize(Forms(parse, a));
      UniqueSize(Forms(parse, b));
      if Strict(x) && Strict(y) && Elements(x) == Elements(y) {
        StrictDetermined(x, y);
      }
    }
  }
}
