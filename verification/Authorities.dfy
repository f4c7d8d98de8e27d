/** The store of federation call authorities and its reconciliation with the configured rules.
    Models crates/xolotl-daemon/src/federation_catalog.rs over the store contract of
    crates/xolotl-federation/src/call_memory.rs. */
module Authorities {
  import opened Program
  import opened Bytes

  /** An exact method grant. `terms` stands for its expiry and size limits. */
  datatype Rule = Rule(key: Text, enabled: bool, terms: nat)

  datatype Entry = Entry(rule: Rule, revision: nat)

  /** A configured rule and the revision its author saw. */
  datatype Prepared = Prepared(rule: Rule, expected: Option<nat>)

  datatype Failure = Invalid | Conflict | Capacity

  const PAGE: nat := 256

  // ----- an ordered table -----

  predicate Ordered(rows: seq<Entry>) {
    forall i, j :: 0 <= i < j < |rows| ==> Less(rows[i].rule.key, rows[j].rule.key)
  }

  function Find(rows: seq<Entry>, key: Text): Option<Entry> {
    if rows == [] then None else if rows[0].rule.key == key then Some(rows[0]) else Find(rows[1..], key)
  }

  /** The table with the row of `e`'s key replaced or inserted in its place. */
  function Put(rows: seq<Entry>, e: Entry): seq<Entry> {
    if rows == [] || Less(e.rule.key, rows[0].rule.key) then [e] + rows
    else if rows[0].rule.key == e.rule.key then [e] + rows[1..]
    else [rows[0]] + Put(rows[1..], e)
  }

  lemma {:induction false} FindPut(rows: seq<Entry>, e: Entry, key: Text)
    requires Ordered(rows)
    ensures Find(Put(rows, e), key) == if key == e.rule.key then Some(e) else Find(rows, key)
  {
    if rows == [] || Less(e.rule.key, rows[0].rule.key) {
      assert ([e] + rows)[1..] == rows;
    } else if rows[0].rule.key == e.rule.key {
      assert ([e] + rows[1..])[1..] == rows[1..];
    } else {
      FindPut(rows[1..], e, key);
      assert ([rows[0]] + Put(rows[1..], e))[1..] == Put(rows[1..], e);
    }
  }

  /** Every row of the table after a write comes after `low`, if all did and the new one does. */
  lemma {:induction false} PutAbove(rows: seq<Entry>, e: Entry, low: Text)
    requires forall i :: 0 <= i < |rows| ==> Less(low, rows[i].rule.key)
    requires Less(low, e.rule.key)
    ensures forall i :: 0 <= i < |Put(rows, e)| ==> Less(low, Put(rows, e)[i].rule.key)
  {
    if rows != [] && !Less(e.rule.key, rows[0].rule.key) && rows[0].rule.key != e.rule.key {
      PutAbove(rows[1..], e, low);
    }
  }

  lemma {:induction false} PutOrdered(rows: seq<Entry>, e: Entry)
    requires Ordered(rows)
    ensures Ordered(Put(rows, e))
  {
    if rows == [] {
    } else if Less(e.rule.key, rows[0].rule.key) {
      forall j | 0 < j < |rows| ensures Less(e.rule.key, rows[j].rule.key) {
        LessTransitive(e.rule.key, rows[0].rule.key, rows[j].rule.key);
      }
    } else if rows[0].rule.key != e.rule.key {
      LessTotal(e.rule.key, rows[0].rule.key);
      PutOrdered(rows[1..], e);
      PutAbove(rows[1..], e, rows[0].rule.key);
    }
  }

  /** A write goes after the rows with smaller keys. */
  lemma {:induction false} PutIs(rows: seq<Entry>, e: Entry, i: nat)
    requires i <= |rows| && (forall k :: 0 <= k < i ==> Less(rows[k].rule.key, e.rule.key))
    requires i < |rows| ==> !Less(rows[i].rule.key, e.rule.key)
    ensures Put(rows, e) ==
      rows[..i] + [e] + if i < |rows| && rows[i].rule.key == e.rule.key then rows[i + 1..] else rows[i..]
    decreases i
  {
    if i > 0 {
      NotBoth(rows[0].rule.key, e.rule.key);
      PutIs(rows[1..], e, i - 1);
      assert rows[..i] == [rows[0]] + rows[1..][..i - 1];
    } else if rows != [] {
      LessTotal(rows[0].rule.key, e.rule.key);
      LessIrreflexive(e.rule.key);
      assert rows[..0] == [];
    }
  }

  /** Writing a key that is there replaces its row. */
  lemma {:induction false} PutAt(rows: seq<Entry>, i: nat, e: Entry)
    requires Ordered(rows) && i < |rows| && rows[i].rule.key == e.rule.key
    ensures Put(rows, e) == rows[i := e]
  {
    if i == 0 {
      LessIrreflexive(e.rule.key);
    } else {
      assert Less(rows[0].rule.key, rows[i].rule.key);
      NotBoth(rows[0].rule.key, e.rule.key);
      PutAt(rows[1..], i - 1, e);
      assert rows == [rows[0]] + rows[1..];
    }
  }

  lemma NotBoth(a: Text, b: Text)
    requires Less(a, b)
    ensures a != b && !Less(b, a)
  {
    if Less(b, a) {
      LessTransitive(a, b, a);
    }
    LessIrreflexive(a);
  }

  lemma {:induction false} FindAt(rows: seq<Entry>, i: nat)
    requires Ordered(rows) && i < |rows|
    ensures Find(rows, rows[i].rule.key) == Some(rows[i])
  {
    if i > 0 {
      assert Less(rows[0].rule.key, rows[i].rule.key);
      NotBoth(rows[0].rule.key, rows[i].rule.key);
      FindAt(rows[1..], i - 1);
    }
  }

  // ----- the store -----

  /** The revision of a key, if it has one. */
  function Revision(rows: seq<Entry>, key: Text): Option<nat> {
    var current := Find(rows, key);
    if current.Some? then Some(current.value.revision) else None
  }

  /** How many leading rows have keys up to `after`. */
  function Passed(rows: seq<Entry>, after: Option<Text>): (n: nat)
    ensures n <= |rows|
  {
    if rows == [] || after.None? || Less(after.value, rows[0].rule.key) then 0 else 1 + Passed(rows[1..], after)
  }

  /** A page: up to `max` rows after an exclusive key, in order. */
  function Page(rows: seq<Entry>, after: Option<Text>, max: nat): seq<Entry> {
    var from := Passed(rows, after);
    if |rows| - from <= max then rows[from..] else rows[from..from + max]
  }

  class CallStore {
    var rows: seq<Entry>
    const accepts: Rule -> bool
    const capacity: nat

    constructor (accepts: Rule -> bool, capacity: nat, rows: seq<Entry>)
      ensures this.accepts == accepts && this.capacity == capacity && this.rows == rows
    {
      this.accepts, this.capacity, this.rows := accepts, capacity, rows;
    }

    /** Replace or insert the row of a key. */
    method Insert(e: Entry)
      requires Ordered(rows)
      modifies this
      ensures rows == Put(old(rows), e) && Ordered(rows)
    {
      hide Less, Put, Ordered;
      PutOrdered(rows, e);
      var i := 0;
      while i < |rows| && Less(rows[i].rule.key, e.rule.key)
        invariant i <= |rows| && rows == old(rows) && forall k :: 0 <= k < i ==> Less(rows[k].rule.key, e.rule.key)
      {
        i := i + 1;
      }
      PutIs(rows, e, i);
      if i < |rows| && rows[i].rule.key == e.rule.key {
        rows := rows[..i] + [e] + rows[i + 1..];
      } else {
        rows := rows[..i] + [e] + rows[i..];
      }
    }

    /** Set a rule against the revision its author saw. It lands exactly when the rule is acceptable,
        the key has that revision, a new key has room and the revision can advance; then its row is
        this rule one revision on, and every other key is as it was. Otherwise nothing changes. */
    method SetCallAuthority(expected: Option<nat>, rule: Rule) returns (r: Result<nat, Failure>)
      requires Ordered(rows)
      modifies this
      ensures Ordered(rows)
      ensures var seen := Revision(old(rows), rule.key);
        && (r.Ok? ==> seen == expected && r.value == (if seen.Some? then seen.value + 1 else 1) <= U64_MAX)
        && (r == Err(Invalid) <==> !accepts(rule))
        && (r == Err(Conflict) <==> accepts(rule) && seen != expected && (seen.Some? || |old(rows)| < capacity))
        && (r == Err(Capacity) <==>
              accepts(rule) && if seen.None? then |old(rows)| >= capacity
                else seen == expected && seen.value >= U64_MAX)
      ensures r.Ok? ==>
        && rows == Put(old(rows), Entry(rule, r.value)) && Find(rows, rule.key) == Some(Entry(rule, r.value))
        && forall key :: key != rule.key ==> Find(rows, key) == Find(old(rows), key)
      ensures r.Err? ==> rows == old(rows)
    {
      if !accepts(rule) {
        return Err(Invalid);
      }
      var row := CallAuthority(rule.key);
      var current := if row.Some? then Some(row.value.revision) else None;
      if current.None? && |rows| >= capacity {
        return Err(Capacity);
      }
      if current != expected {
        return Err(Conflict);
      }
      var next := (if current.Some? then current.value else 0) + 1;
      if next > U64_MAX {
        return Err(Capacity);
      }
      forall key
        ensures Find(Put(rows, Entry(rule, next)), key) ==
          if key == rule.key then Some(Entry(rule, next)) else Find(rows, key)
      {
        FindPut(rows, Entry(rule, next), key);
      }
      Insert(Entry(rule, next));
      return Ok(next);
    }

    method CallAuthority(key: Text) returns (r: Option<Entry>)
      ensures r == Find(rows, key)
    {
      for i := 0 to |rows|
        invariant Find(rows, key) == Find(rows[i..], key)
      {
        if rows[i].rule.key == key {
          return Some(rows[i]);
        }
        assert rows[i..][1..] == rows[i + 1..];
      }
      return None;
    }

    method ScanCallAuthorities(after: Option<Text>, max: nat) returns (page: seq<Entry>)
      requires Ordered(rows) && max > 0
      ensures page == Page(rows, after, max)
    {
      page := [];
      ghost var from := Passed(rows, after);
      PassedSplits(rows, after);
      for i := 0 to |rows|
        invariant page == if i <= from then [] else rows[from..i]
        invariant |page| < max
      {
        if after.Some? && !Less(after.value, rows[i].rule.key) {
          continue;
        }
        page := page + [rows[i]];
        if |page| == max {
          break;
        }
      }
    }
  }

  /** Keys up to `after` come first. */
  lemma {:induction false} PassedSplits(rows: seq<Entry>, after: Option<Text>)
    requires Ordered(rows)
    ensures var n := Passed(rows, after);
      && (forall i :: 0 <= i < n ==> after.Some? && !Less(after.value, rows[i].rule.key))
      && (forall i :: n <= i < |rows| ==> after.None? || Less(after.value, rows[i].rule.key))
  {
    if rows != [] && after.Some? {
      if Less(after.value, rows[0].rule.key) {
        forall i | 0 < i < |rows| ensures Less(after.value, rows[i].rule.key) {
          LessTransitive(after.value, rows[0].rule.key, rows[i].rule.key);
        }
      } else {
        PassedSplits(rows[1..], after);
        forall i | 0 < i < |rows| ensures rows[i] == rows[1..][i - 1] {
        }
      }
    }
  }

  // ----- reconciliation -----

  predicate Wanted(desired: seq<Prepared>, key: Text) {
    exists i :: 0 <= i < |desired| && desired[i].rule.key == key
  }

  /** A row that nobody asks for is switched off in place. */
  function Switched(e: Entry, desired: seq<Prepared>): Entry {
    if e.rule.enabled && !Wanted(desired, e.rule.key) then Entry(e.rule.(enabled := false), e.revision + 1) else e
  }

  /** The table once the first `n` rows have been looked at. */
  function Swept(rows: seq<Entry>, desired: seq<Prepared>, n: nat): (r: seq<Entry>)
    ensures |r| == |rows|
  {
    seq(|rows|, i requires 0 <= i < |rows| => if i < n then Switched(rows[i], desired) else rows[i])
  }

  lemma SweptOrdered(rows: seq<Entry>, desired: seq<Prepared>, n: nat)
    requires Ordered(rows)
    ensures Ordered(Swept(rows, desired, n))
  {
  }

  /** The row at `i` is the last one up to its own key. */
  lemma {:induction false} PassedAt(rows: seq<Entry>, i: nat)
    requires Ordered(rows) && i < |rows|
    ensures Passed(rows, Some(rows[i].rule.key)) == i + 1
  {
    if i == 0 {
      LessIrreflexive(rows[0].rule.key);
      if |rows| > 1 {
        assert Less(rows[0].rule.key, rows[1].rule.key) && rows[1..][0] == rows[1];
      }
    } else {
      NotBoth(rows[0].rule.key, rows[i].rule.key);
      PassedAt(rows[1..], i - 1);
    }
  }

  /** Why a row cannot be switched off: nobody asks for it, but the store rejects the rule switched
      off, or its revision cannot advance. */
  function SwitchFault(e: Entry, desired: seq<Prepared>, accepts: Rule -> bool): Option<Failure> {
    if !e.rule.enabled || Wanted(desired, e.rule.key) then None
    else if !accepts(e.rule.(enabled := false)) then Some(Invalid)
    else if e.revision >= U64_MAX then Some(Capacity)
    else None
  }

  /** The first row from `from` on that cannot be switched off, or the end of the table. */
  function Stuck(rows: seq<Entry>, desired: seq<Prepared>, accepts: Rule -> bool, from: nat): (n: nat)
    requires from <= |rows|
    ensures from <= n <= |rows| && (forall i :: from <= i < n ==> SwitchFault(rows[i], desired, accepts).None?)
    ensures n < |rows| ==> SwitchFault(rows[n], desired, accepts).Some?
    decreases |rows| - from
  {
    if from == |rows| || SwitchFault(rows[from], desired, accepts).Some? then from
    else Stuck(rows, desired, accepts, from + 1)
  }

  /** What the sweep reports: the fault of the first row that cannot be switched off. */
  function SweepFault(rows: seq<Entry>, desired: seq<Prepared>, accepts: Rule -> bool): Option<Failure> {
    var n := Stuck(rows, desired, accepts, 0);
    if n < |rows| then SwitchFault(rows[n], desired, accepts) else None
  }

  /** Switch off row `i` if nobody asks for it. */
  method SwitchOff(store: CallStore, ghost before: seq<Entry>, ghost i: nat, entry: Entry, desired: seq<Prepared>)
    returns (failure: Option<Failure>)
    requires Ordered(before) && i < |before| && store.rows == Swept(before, desired, i) && entry == before[i]
    modifies store
    ensures failure == SwitchFault(entry, desired, store.accepts)
    ensures failure.None? ==> store.rows == Swept(before, desired, i + 1)
    ensures failure.Some? ==> store.rows == old(store.rows)
  {
    SweptOrdered(before, desired, i);
    FindAt(store.rows, i);
    failure := None;
    var wanted := exists k :: 0 <= k < |desired| && desired[k].rule.key == entry.rule.key;
    if entry.rule.enabled && !wanted {
      var off := entry.rule.(enabled := false);
      PutAt(store.rows, i, Entry(off, entry.revision + 1));
      var r := store.SetCallAuthority(Some(entry.revision), off);
      if r.Err? {
        assert r.error.Invalid? || r.error.Conflict? || r.error.Capacity?;
        return Some(r.error);
      }
    }
    assert failure.None? ==> store.rows == Swept(before, desired, i + 1);
  }

  /** The next page after the first `done` rows shows the rows that follow, as they were. */
  lemma PageAfter(before: seq<Entry>, desired: seq<Prepared>, done: nat, after: Option<Text>)
    requires done <= |before| && Passed(Swept(before, desired, done), after) == done
    ensures var page := Page(Swept(before, desired, done), after, PAGE);
      && done + |page| <= |before| && page == before[done..done + |page|]
      && (|page| < PAGE ==> done + |page| == |before|)
  {
  }

  lemma SweptNone(rows: seq<Entry>, desired: seq<Prepared>)
    ensures Swept(rows, desired, 0) == rows && Passed(rows, None) == 0
  {
  }

  /** After a page the scan goes on behind its last row. */
  lemma PagePassed(before: seq<Entry>, desired: seq<Prepared>, done: nat)
    requires Ordered(before) && 0 < done <= |before|
    ensures Passed(Swept(before, desired, done), Some(before[done - 1].rule.key)) == done
  {
    SweptOrdered(before, desired, done);
    PassedAt(Swept(before, desired, done), done - 1);
  }

  /** Go through the table page by page and switch off what nobody asks for, up to the first row
      that cannot be switched off. */
  method Sweep(store: CallStore, desired: seq<Prepared>) returns (failure: Option<Failure>)
    requires Ordered(store.rows)
    modifies store
    ensures failure == SweepFault(old(store.rows), desired, store.accepts)
    ensures store.rows == Swept(old(store.rows), desired, Stuck(old(store.rows), desired, store.accepts, 0))
  {
    hide Page, Passed, Swept, Ordered, SwitchFault;
    ghost var before, done: nat := store.rows, 0;
    var after: Option<Text> := None;
    SweptNone(before, desired);
    while true
      invariant done <= |before| && store.rows == Swept(before, desired, done) && Passed(store.rows, after) == done
      invariant Stuck(before, desired, store.accepts, 0) == Stuck(before, desired, store.accepts, done)
      decreases |before| - done
    {
      SweptOrdered(before, desired, done);
      PageAfter(before, desired, done, after);
      var page := store.ScanCallAuthorities(after, PAGE);
      if page == [] {
        break;
      }
      ghost var start := done;
      for j := 0 to |page|
        invariant done == start + j && store.rows == Swept(before, desired, done)
        invariant Stuck(before, desired, store.accepts, 0) == Stuck(before, desired, store.accepts, done)
      {
        failure := SwitchOff(store, before, done, page[j], desired);
        if failure.Some? {
          return;
        }
        done := done + 1;
      }
      PagePassed(before, desired, done);
      after := Some(page[|page| - 1].rule.key);
      if |page| < PAGE {
        break;
      }
    }
    return None;
  }

  /** What granting one configured rule leaves. */
  function Granted(rows: seq<Entry>, item: Prepared): seq<Entry> {
    var current := Find(rows, item.rule.key);
    if current.Some? && current.value.rule == item.rule then rows
    else if current.Some? then Put(rows, Entry(item.rule, current.value.revision + 1))
    else if item.rule.enabled then Put(rows, Entry(item.rule, 1))
    else rows
  }

  function GrantedAll(rows: seq<Entry>, desired: seq<Prepared>): seq<Entry> {
    if desired == [] then rows else Granted(GrantedAll(rows, desired[..|desired| - 1]), desired[|desired| - 1])
  }

  /** A configured rule needs no write: its row stands already, or it is disabled and has no row. */
  predicate Stands(current: Option<Entry>, rule: Rule) {
    if current.Some? then current.value.rule == rule else !rule.enabled
  }

  /** Why a configured rule cannot be granted over the row `current` in a table of `size` rows. */
  function GrantFault(current: Option<Entry>, size: nat, item: Prepared, accepts: Rule -> bool,
      capacity: nat): Option<Failure> {
    var seen := if current.Some? then Some(current.value.revision) else None;
    if current.Some? && Stands(current, item.rule) then None
    else if seen != item.expected then Some(Conflict)
    else if Stands(current, item.rule) then None
    else if !accepts(item.rule) then Some(Invalid)
    else if current.None? && size >= capacity then Some(Capacity)
    else if current.Some? && current.value.revision >= U64_MAX then Some(Capacity)
    else None
  }

  /** Grant one configured rule. A row that stands is left alone. Otherwise the author must have seen
      the current revision, and the store must accept the rule and have room for it. */
  method Grant(store: CallStore, item: Prepared) returns (failure: Option<Failure>)
    requires Ordered(store.rows)
    modifies store
    ensures Ordered(store.rows)
    ensures var current := Find(old(store.rows), item.rule.key);
      failure == GrantFault(current, |old(store.rows)|, item, store.accepts, store.capacity)
    ensures store.rows == if failure.None? then Granted(old(store.rows), item) else old(store.rows)
  {
    failure := None;
    var current := store.CallAuthority(item.rule.key);
    if current.Some? && current.value.rule == item.rule {
      return;
    }
    var revision := if current.Some? then Some(current.value.revision) else None;
    if revision != item.expected {
      return Some(Conflict);
    }
    if current.Some? || item.rule.enabled {
      PutOrdered(store.rows, Entry(item.rule, if current.Some? then current.value.revision + 1 else 1));
      var r := store.SetCallAuthority(item.expected, item.rule);
      if r.Err? {
        assert r.error.Invalid? || r.error.Conflict? || r.error.Capacity?;
        return Some(r.error);
      }
    }
  }

  /** What granting rule `k` reports once those before it have been granted. */
  function FaultAt(rows: seq<Entry>, desired: seq<Prepared>, k: nat, accepts: Rule -> bool,
      capacity: nat): Option<Failure>
    requires k < |desired|
  {
    var table := GrantedAll(rows, desired[..k]);
    GrantFault(Find(table, desired[k].rule.key), |table|, desired[k], accepts, capacity)
  }

  /** The first rule from `from` on that cannot be granted, or the end of the configuration. */
  function Refused(rows: seq<Entry>, desired: seq<Prepared>, accepts: Rule -> bool, capacity: nat, from: nat): (k: nat)
    requires from <= |desired|
    ensures from <= k <= |desired| && (forall i :: from <= i < k ==> FaultAt(rows, desired, i, accepts, capacity).None?)
    ensures k < |desired| ==> FaultAt(rows, desired, k, accepts, capacity).Some?
    decreases |desired| - from
  {
    if from == |desired| || FaultAt(rows, desired, from, accepts, capacity).Some? then from
    else Refused(rows, desired, accepts, capacity, from + 1)
  }

  /** What reconciliation reports: the first fault of the sweep, or else the first of the grants. */
  function ReconcileFault(rows: seq<Entry>, desired: seq<Prepared>, accepts: Rule -> bool,
      capacity: nat): Option<Failure> {
    var swept := Swept(rows, desired, |rows|);
    var k := Refused(swept, desired, accepts, capacity, 0);
    if SweepFault(rows, desired, accepts).Some? then SweepFault(rows, desired, accepts)
    else if k < |desired| then FaultAt(swept, desired, k, accepts, capacity)
    else None
  }

  /** Switch off everything that is not configured, then grant what is, up to the first failure. */
  method ReconcileAuthorities(store: CallStore, desired: seq<Prepared>) returns (failure: Option<Failure>)
    requires Ordered(store.rows)
    modifies store
    ensures Ordered(store.rows)
    ensures failure == ReconcileFault(old(store.rows), desired, store.accepts, store.capacity)
    ensures failure.None? ==> store.rows == GrantedAll(Swept(old(store.rows), desired, |old(store.rows)|), desired)
    ensures failure.Some? ==> PartWay(old(store.rows), store.rows, desired)
    ensures Kept(old(store.rows), store.rows)
    ensures forall key :: On(store.rows, key) ==> Wanted(desired, key) || On(old(store.rows), key)
  {
    hide Find, Put, Swept, Granted, GrantedAll, GrantFault, SwitchFault, Kept, On, Wanted, Ordered;
    ghost var before := store.rows;
    ghost var n := Stuck(before, desired, store.accepts, 0);
    failure := Sweep(store, desired);
    SweptOrdered(before, desired, n);
    SweptKept(before, desired, n);
    if failure.Some? {
      PartWayOn(before, store.rows, desired);
      return;
    }
    ghost var swept := store.rows;
    GrantedNone(swept, desired);
    for k := 0 to |desired|
      invariant failure.None? && Ordered(store.rows) && store.rows == GrantedAll(swept, desired[..k])
        && Kept(before, store.rows)
      invariant Refused(swept, desired, store.accepts, store.capacity, 0) ==
        Refused(swept, desired, store.accepts, store.capacity, k)
    {
      GrantedStep(swept, desired, k);
      ghost var rows := store.rows;
      GrantedKept(rows, desired[k]);
      KeptOn(before, rows, Granted(rows, desired[k]));
      failure := Grant(store, desired[k]);
      if failure.Some? {
        PartWayOn(before, store.rows, desired);
        return;
      }
    }
    assert desired[..|desired|] == desired;
    PartWayOn(before, store.rows, desired);
  }

  lemma GrantedNone(rows: seq<Entry>, desired: seq<Prepared>)
    ensures GrantedAll(rows, desired[..0]) == rows
  {
  }

  lemma GrantedStep(rows: seq<Entry>, desired: seq<Prepared>, k: nat)
    requires k < |desired|
    ensures GrantedAll(rows, desired[..k + 1]) == Granted(GrantedAll(rows, desired[..k]), desired[k])
  {
    assert desired[..k + 1][..k] == desired[..k] && desired[..k + 1][k] == desired[k];
  }

  // ----- what reconciliation achieves -----

  predicate On(rows: seq<Entry>, key: Text) { Find(rows, key).Some? && Find(rows, key).value.rule.enabled }

  /** Reconciliation stopped somewhere: while it was switching rows off, with nothing granted, or
      after all of that, with the first few grants made. */
  ghost predicate PartWay(rows: seq<Entry>, after: seq<Entry>, desired: seq<Prepared>) {
    || (exists n: nat :: n <= |rows| && after == Swept(rows, desired, n))
    || (exists k: nat :: k <= |desired| && after == GrantedAll(Swept(rows, desired, |rows|), desired[..k]))
  }

  lemma {:induction false} GrantedAllOthers(rows: seq<Entry>, desired: seq<Prepared>, key: Text)
    requires Ordered(rows) && !Wanted(desired, key)
    ensures Ordered(GrantedAll(rows, desired)) && Find(GrantedAll(rows, desired), key) == Find(rows, key)
    decreases |desired|
  {
    if desired != [] {
      var less, item := desired[..|desired| - 1], desired[|desired| - 1];
      GrantedAllOthers(rows, less, key);
      GrantedKept(GrantedAll(rows, less), item);
      FindGranted(GrantedAll(rows, less), item, key);
    }
  }

  /** Wherever it stopped, only what is configured has been switched on. */
  lemma PartWayOn(rows: seq<Entry>, after: seq<Entry>, desired: seq<Prepared>)
    requires Ordered(rows) && PartWay(rows, after, desired)
    ensures forall key :: On(after, key) ==> Wanted(desired, key) || On(rows, key)
  {
    hide GrantedAll, Swept, Ordered;
    forall key | On(after, key) && !Wanted(desired, key) ensures On(rows, key) {
      if n: nat :| n <= |rows| && after == Swept(rows, desired, n) {
        FindSwept(rows, desired, n, key);
      } else {
        var k: nat :| k <= |desired| && after == GrantedAll(Swept(rows, desired, |rows|), desired[..k]);
        SweptOrdered(rows, desired, |rows|);
        FindSwept(rows, desired, |rows|, key);
        GrantedAllOthers(Swept(rows, desired, |rows|), desired[..k], key);
      }
    }
  }

  /** No key disappears and no revision moves back. */
  ghost predicate Kept(rows: seq<Entry>, after: seq<Entry>) {
    forall key: Text :: Find(rows, key).Some? ==>
      Find(after, key).Some? && Find(after, key).value.revision >= Find(rows, key).value.revision
  }

  lemma KeptOn(a: seq<Entry>, b: seq<Entry>, c: seq<Entry>)
    requires Kept(a, b) && Kept(b, c)
    ensures Kept(a, c)
  {
  }

  /** What the sweep leaves under each key. */
  lemma {:induction false} FindSwept(rows: seq<Entry>, desired: seq<Prepared>, n: nat, key: Text)
    ensures Find(Swept(rows, desired, n), key).Some? <==> Find(rows, key).Some?
    ensures Find(rows, key).Some? ==>
      var e, f := Find(rows, key).value, Find(Swept(rows, desired, n), key).value;
      f == e || f == Switched(e, desired)
    ensures Find(rows, key).Some? && n >= |rows| ==>
      Find(Swept(rows, desired, n), key) == Some(Switched(Find(rows, key).value, desired))
    decreases |rows|
  {
    if rows != [] {
      assert Swept(rows, desired, n)[1..] == Swept(rows[1..], desired, if n > 0 then n - 1 else 0);
      FindSwept(rows[1..], desired, if n > 0 then n - 1 else 0, key);
    }
  }

  lemma SweptKept(rows: seq<Entry>, desired: seq<Prepared>, n: nat)
    ensures Kept(rows, Swept(rows, desired, n))
  {
    forall key: Text | Find(rows, key).Some?
      ensures var f := Find(Swept(rows, desired, n), key); f.Some? && f.value.revision >= Find(rows, key).value.revision
    {
      FindSwept(rows, desired, n, key);
    }
  }

  lemma FindGranted(rows: seq<Entry>, item: Prepared, key: Text)
    requires Ordered(rows)
    ensures key != item.rule.key ==> Find(Granted(rows, item), key) == Find(rows, key)
    ensures var now := Find(Granted(rows, item), item.rule.key);
      if now.Some? then now.value.rule == item.rule else Find(rows, item.rule.key).None? && !item.rule.enabled
  {
    var current := Find(rows, item.rule.key);
    var e := Entry(item.rule, if current.Some? then current.value.revision + 1 else 1);
    FindPut(rows, e, key);
    FindPut(rows, e, item.rule.key);
  }

  lemma GrantedKept(rows: seq<Entry>, item: Prepared)
    requires Ordered(rows)
    ensures Kept(rows, Granted(rows, item)) && Ordered(Granted(rows, item))
  {
    var current := Find(rows, item.rule.key);
    var e := Entry(item.rule, if current.Some? then current.value.revision + 1 else 1);
    PutOrdered(rows, e);
    forall key: Text | Find(rows, key).Some?
      ensures var f := Find(Granted(rows, item), key); f.Some? && f.value.revision >= Find(rows, key).value.revision
    {
      FindPut(rows, e, key);
    }
  }

  /** Configured keys are distinct, as preparation checks. */
  predicate Distinct(desired: seq<Prepared>) {
    forall i, j :: 0 <= i < j < |desired| ==> desired[i].rule.key != desired[j].rule.key
  }

  lemma {:induction false} GrantedAllFinds(rows: seq<Entry>, desired: seq<Prepared>)
    requires Ordered(rows) && Distinct(desired)
    ensures Ordered(GrantedAll(rows, desired))
    ensures forall key: Text :: !Wanted(desired, key) ==> Find(GrantedAll(rows, desired), key) == Find(rows, key)
    ensures forall i :: 0 <= i < |desired| ==>
      var now := Find(GrantedAll(rows, desired), desired[i].rule.key);
      if now.Some? then now.value.rule == desired[i].rule
      else Find(rows, desired[i].rule.key).None? && !desired[i].rule.enabled
    decreases |desired|
  {
    if desired != [] {
      var n := |desired| - 1;
      var less, item := desired[..n], desired[n];
      GrantedAllFinds(rows, less);
      var mid := GrantedAll(rows, less);
      GrantedKept(mid, item);
      assert !Wanted(less, item.rule.key);
      forall key: Text | !Wanted(desired, key) ensures Find(GrantedAll(rows, desired), key) == Find(rows, key) {
        assert desired[n].rule.key != key;
        assert forall i :: 0 <= i < n ==> less[i] == desired[i];
        assert !Wanted(less, key);
        FindGranted(mid, item, key);
      }
      forall i | 0 <= i < |desired|
        ensures var now := Find(GrantedAll(rows, desired), desired[i].rule.key);
          if now.Some? then now.value.rule == desired[i].rule
          else Find(rows, desired[i].rule.key).None? && !desired[i].rule.enabled
      {
        FindGranted(mid, item, desired[i].rule.key);
        if i < n {
          assert less[i] == desired[i];
        }
      }
    }
  }

  predicate Enabling(desired: seq<Prepared>, key: Text) {
    exists i :: 0 <= i < |desired| && desired[i].rule.key == key && desired[i].rule.enabled
  }

  /** After a successful reconciliation a key is enabled exactly when a configured rule enables it:
      every configured rule stands as configured, or is absent because it is disabled and was absent; every other
      row is as it was except that it is switched off. */
  lemma ReconciledExactly(rows: seq<Entry>, desired: seq<Prepared>, key: Text)
    requires Ordered(rows) && Distinct(desired)
    ensures var after := GrantedAll(Swept(rows, desired, |rows|), desired);
      && (forall i :: 0 <= i < |desired| ==>
            var now := Find(after, desired[i].rule.key);
            if now.Some? then now.value.rule == desired[i].rule
            else Find(rows, desired[i].rule.key).None? && !desired[i].rule.enabled)
      && (On(after, key) <==> Enabling(desired, key))
      && (!Wanted(desired, key) ==>
            Find(after, key) == if Find(rows, key).Some? then Some(Switched(Find(rows, key).value, desired)) else None)
  {
    var swept := Swept(rows, desired, |rows|);
    SweptOrdered(rows, desired, |rows|);
    GrantedAllFinds(swept, desired);
    FindSwept(rows, desired, |rows|, key);
    forall i | 0 <= i < |desired|
      ensures Find(swept, desired[i].rule.key).None? ==> Find(rows, desired[i].rule.key).None?
    {
      FindSwept(rows, desired, |rows|, desired[i].rule.key);
    }
    KeyOfFound(rows, key);
    hide GrantedAll, Swept;
    if Wanted(desired, key) {
      var i :| 0 <= i < |desired| && desired[i].rule.key == key;
      assert Enabling(desired, key) <==> desired[i].rule.enabled;
    }
  }

  lemma {:induction false} KeyOfFound(rows: seq<Entry>, key: Text)
    ensures Find(rows, key).Some? ==> Find(rows, key).value.rule.key == key
  {
    if rows != [] {
      KeyOfFound(rows[1..], key);
    }
  }

  // ----- when reconciliation succeeds -----

  lemma {:induction false} FindBelow(rows: seq<Entry>, key: Text)
    requires forall i :: 0 <= i < |rows| ==> Less(key, rows[i].rule.key)
    ensures Find(rows, key).None?
  {
    if rows != [] {
      NotBoth(key, rows[0].rule.key);
      FindBelow(rows[1..], key);
    }
  }

  /** A write adds a row exactly when the key had none. */
  lemma {:induction false} PutSize(rows: seq<Entry>, e: Entry)
    requires Ordered(rows)
    ensures |Put(rows, e)| == |rows| + if Find(rows, e.rule.key).None? then 1 else 0
  {
    if rows == [] {
    } else if Less(e.rule.key, rows[0].rule.key) {
      forall i | 0 < i < |rows| ensures Less(e.rule.key, rows[i].rule.key) {
        LessTransitive(e.rule.key, rows[0].rule.key, rows[i].rule.key);
      }
      FindBelow(rows, e.rule.key);
    } else if rows[0].rule.key != e.rule.key {
      PutSize(rows[1..], e);
    }
  }

  /** The configured rules that need a row of their own. */
  function NewRows(rows: seq<Entry>, desired: seq<Prepared>): nat {
    if desired == [] then 0
    else
      var item := desired[|desired| - 1];
      NewRows(rows, desired[..|desired| - 1]) + if Find(rows, item.rule.key).None? && item.rule.enabled then 1 else 0
  }

  /** While the rules before it are granted, a configured rule finds its row as it was. */
  lemma FindFirst(rows: seq<Entry>, desired: seq<Prepared>, k: nat)
    requires Ordered(rows) && Distinct(desired) && k < |desired|
    ensures var table := GrantedAll(Swept(rows, desired, |rows|), desired[..k]);
      Ordered(table) && Find(table, desired[k].rule.key) == Find(rows, desired[k].rule.key)
  {
    var swept, key := Swept(rows, desired, |rows|), desired[k].rule.key;
    SweptOrdered(rows, desired, |rows|);
    FindSwept(rows, desired, |rows|, key);
    KeyOfFound(rows, key);
    assert Wanted(desired, key) && !Wanted(desired[..k], key);
    GrantedAllOthers(swept, desired[..k], key);
    hide GrantedAll, Swept, Ordered;
  }

  lemma {:induction false} GrantedSize(rows: seq<Entry>, desired: seq<Prepared>, k: nat)
    requires Ordered(rows) && Distinct(desired) && k <= |desired|
    ensures |GrantedAll(Swept(rows, desired, |rows|), desired[..k])| == |rows| + NewRows(rows, desired[..k])
    decreases k
  {
    if k > 0 {
      var swept, item := Swept(rows, desired, |rows|), desired[k - 1];
      GrantedSize(rows, desired, k - 1);
      FindFirst(rows, desired, k - 1);
      GrantedStep(swept, desired, k - 1);
      var table := GrantedAll(swept, desired[..k - 1]);
      var current := Find(table, item.rule.key);
      PutSize(table, Entry(item.rule, if current.Some? then current.value.revision + 1 else 1));
      assert desired[..k][..k - 1] == desired[..k - 1] && desired[..k][k - 1] == item;
    }
  }

  /** Why configured rule `k` cannot be granted, read off the table as it is before: over the row of
      its own key, in a table that has grown by the new rules before it. */
  function Foretold(rows: seq<Entry>, desired: seq<Prepared>, k: nat, accepts: Rule -> bool,
      capacity: nat): Option<Failure>
    requires k < |desired|
  {
    var size := |rows| + NewRows(rows, desired[..k]);
    GrantFault(Find(rows, desired[k].rule.key), size, desired[k], accepts, capacity)
  }

  lemma FaultForetold(rows: seq<Entry>, desired: seq<Prepared>, k: nat, accepts: Rule -> bool, capacity: nat)
    requires Ordered(rows) && Distinct(desired) && k < |desired|
    ensures FaultAt(Swept(rows, desired, |rows|), desired, k, accepts, capacity) ==
      Foretold(rows, desired, k, accepts, capacity)
  {
    hide GrantedAll, Swept, Ordered, Distinct, GrantFault, Find, NewRows;
    FindFirst(rows, desired, k);
    GrantedSize(rows, desired, k);
  }

  /** Reconciliation succeeds exactly when, in the table as it is before, every row that nobody asks
      for can be switched off and every configured rule can be granted. */
  lemma ReconcilesWhen(rows: seq<Entry>, desired: seq<Prepared>, accepts: Rule -> bool, capacity: nat)
    requires Ordered(rows) && Distinct(desired)
    ensures ReconcileFault(rows, desired, accepts, capacity).None? <==>
      && (forall i :: 0 <= i < |rows| ==> SwitchFault(rows[i], desired, accepts).None?)
      && (forall k :: 0 <= k < |desired| ==> Foretold(rows, desired, k, accepts, capacity).None?)
  {
    hide Swept, Ordered, Distinct, SwitchFault, FaultAt, Foretold, Stuck, Refused;
    forall k | 0 <= k < |desired|
      ensures FaultAt(Swept(rows, desired, |rows|), desired, k, accepts, capacity) ==
        Foretold(rows, desired, k, accepts, capacity)
    {
      FaultForetold(rows, desired, k, accepts, capacity);
    }
  }
}
