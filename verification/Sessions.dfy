/** Console session rows under concurrent renewal, token refresh and revocation: a bounded
    compare-and-replace loop. Models crates/xolotl-console/src/auth.rs over the store contract of
    crates/xolotl-console/src/session_store.rs. */
module Sessions {
  import opened Program

  /** A stored session. `authority` stands for the fields that a session keeps for life, apart
      from its hard expiry. */
  datatype Row = Row(token: nat, authority: nat, expiresAt: int, idleExpiresAt: int, lastSeen: int)

  function Min(a: int, b: int): int { if a <= b then a else b }

  const I64_MAX: int := 0x7FFF_FFFF_FFFF_FFFF

  function Later(at: int, ttl: nat): int { Min(at + ttl, I64_MAX) }

  predicate LiveAt(row: Row, now: int) { row.expiresAt > now && row.idleExpiresAt > now }

  function Renewed(row: Row, now: int, ttl: nat): Row {
    row.(lastSeen := now, idleExpiresAt := Min(Later(now, ttl), row.expiresAt))
  }

  predicate SameAuthority(a: Row, b: Row) { a.authority == b.authority && a.expiresAt == b.expiresAt }

  /** An update carried over to a row that others have renewed meanwhile. */
  function Merged(updated: Row, current: Row): Row {
    updated.(lastSeen := Max(updated.lastSeen, current.lastSeen),
             idleExpiresAt := Min(Max(updated.idleExpiresAt, current.idleExpiresAt), updated.expiresAt))
  }

  // ----- the store -----

  /** How a store call ends: normally, with a definite error, or with its reply lost. */
  datatype Fate = Normal | Refused | Lost(landed: bool)

  /** What everyone else does between our calls, and how our calls end. */
  datatype Others = Others(acts: (nat, Option<Row>) -> Option<Row>, fate: nat -> Fate)

  datatype Shelf = Shelf(row: Option<Row>, moment: nat)

  datatype Reply = Done | Conflict | Unknown | Broken

  /** The row once the others have had their turn. */
  function Seen(o: Others, s: Shelf): Option<Row> { o.acts(s.moment, s.row) }

  function Settle(o: Others, s: Shelf, agrees: bool, after: Option<Row>): (Shelf, Reply) {
    var row := Seen(o, s);
    match o.fate(s.moment)
    case Refused => (Shelf(row, s.moment + 1), Broken)
    case Normal => if agrees then (Shelf(after, s.moment + 1), Done) else (Shelf(row, s.moment + 1), Conflict)
    case Lost(landed) => (Shelf(if agrees && landed then after else row, s.moment + 1), Unknown)
  }

  /** Replace exactly the expected row; never insert. */
  function CompareReplace(o: Others, s: Shelf, expected: Row, row: Row): (Shelf, Reply) {
    Settle(o, s, Seen(o, s) == Some(expected), Some(row))
  }

  function Create(o: Others, s: Shelf, row: Row): (Shelf, Reply) { Settle(o, s, Seen(o, s).None?, Some(row)) }

  /** Delete the row, or only the expected one. */
  function Delete(o: Others, s: Shelf, expected: Option<Row>): (Shelf, Reply) {
    Settle(o, s, expected.None? || Seen(o, s) == expected, None)
  }

  /** Read the row; a failed read reads nothing. */
  function Get(o: Others, s: Shelf): (Shelf, Option<Option<Row>>) {
    (Shelf(Seen(o, s), s.moment + 1), if o.fate(s.moment).Normal? then Some(Seen(o, s)) else None)
  }

  // ----- writing a session -----

  datatype Failure = InvalidSession | CommitUnknown | StoreBroken | RateLimited

  const TRIES: nat := 8

  /** What follows a reply: the caller's answer, or another try. */
  datatype Outcome = Answer(r: Result<Row, Failure>) | Again(updated: Row, expected: Row)

  /** Read back what a successful write left. */
  function Confirmed(o: Others, s: Shelf, updated: Row): (Shelf, Result<Row, Failure>) {
    var (t, read) := Get(o, s);
    (t, if read.None? then Err(StoreBroken)
        else if read.value.None? then Err(InvalidSession)
        else if !SameAuthority(read.value.value, updated) || read.value.value.token != updated.token
        then Err(InvalidSession)
        else Ok(read.value.value))
  }

  /** Find out whether a create whose reply was lost took place. */
  function Located(o: Others, s: Shelf, session: Row): (Shelf, Result<Row, Failure>) {
    var (t, read) := Get(o, s);
    (t, if read.None? || read.value.None? then Err(CommitUnknown)
        else if SameAuthority(read.value.value, session) && read.value.value.token == session.token
        then Ok(read.value.value)
        else Err(InvalidSession))
  }

  /** After a conflict: go on only if the row is still ours to update. */
  function Reconsidered(o: Others, s: Shelf, session: Row, observed: Row, updated: Row): (Shelf, Outcome) {
    var (t, read) := Get(o, s);
    (t, if read.None? then Answer(Err(StoreBroken))
        else if read.value.None? then Answer(Err(InvalidSession))
        else if !SameAuthority(read.value.value, session) || read.value.value.token != observed.token
        then Answer(Err(InvalidSession))
        else Again(Merged(updated, read.value.value), read.value.value))
  }

  function WriteNew(o: Others, s: Shelf, session: Row): (Shelf, Result<Row, Failure>) {
    var (t, reply) := Create(o, s, session);
    match reply
    case Done => Confirmed(o, t, session)
    case Unknown => Located(o, t, session)
    case Conflict => (t, Err(InvalidSession))
    case Broken => (t, Err(StoreBroken))
  }

  function Write(o: Others, s: Shelf, session: Row, observed: Row, updated: Row, expected: Row, left: nat):
    (Shelf, Result<Row, Failure>)
    decreases left
  {
    if left == 0 then (s, Err(RateLimited))
    else
      var (t, reply) := CompareReplace(o, s, expected, updated);
      match reply
      case Done => Confirmed(o, t, updated)
      case Unknown => (t, Err(CommitUnknown))
      case Broken => (t, Err(StoreBroken))
      case Conflict =>
        var (u, next) := Reconsidered(o, t, session, observed, updated);
        match next
        case Answer(r) => (u, r)
        case Again(merged, current) => Write(o, u, session, observed, merged, current, left - 1)
  }

  class SessionStore {
    var shelf: Shelf
    const others: Others

    constructor (others: Others, row: Option<Row>)
      ensures this.others == others && shelf == Shelf(row, 0)
    {
      this.others, shelf := others, Shelf(row, 0);
    }

    method Read() returns (r: Option<Option<Row>>)
      modifies this
      ensures (shelf, r) == Get(others, old(shelf))
    {
      var row := others.acts(shelf.moment, shelf.row);
      r := if others.fate(shelf.moment).Normal? then Some(row) else None;
      shelf := Shelf(row, shelf.moment + 1);
    }

    method Commit(agrees: Option<Row> -> bool, after: Option<Row>) returns (r: Reply)
      modifies this
      ensures (shelf, r) == Settle(others, old(shelf), agrees(Seen(others, old(shelf))), after)
    {
      var row := others.acts(shelf.moment, shelf.row);
      var ok := agrees(row);
      match others.fate(shelf.moment)
      case Refused =>
        shelf, r := Shelf(row, shelf.moment + 1), Broken;
      case Normal =>
        r := if ok then Done else Conflict;
        shelf := Shelf(if ok then after else row, shelf.moment + 1);
      case Lost(landed) =>
        shelf, r := Shelf(if ok && landed then after else row, shelf.moment + 1), Unknown;
    }
  }

  /** Write a session that was read as `persisted`, or a new one. */
  method WriteSession(store: SessionStore, session: Row, persisted: Option<Row>) returns (r: Result<Row, Failure>)
    modifies store
    ensures (store.shelf, r) ==
      if persisted.None? then WriteNew(store.others, old(store.shelf), session)
      else Write(store.others, old(store.shelf), session, persisted.value, session, persisted.value, TRIES)
  {
    if persisted.None? {
      var reply := store.Commit((row: Option<Row>) => row.None?, Some(session));
      match reply
      case Done =>
        var read := store.Read();
        return if read.None? then Err(StoreBroken)
               else if read.value.None? || !SameAuthority(read.value.value, session)
                 || read.value.value.token != session.token
               then Err(InvalidSession) else Ok(read.value.value);
      case Unknown =>
        var read := store.Read();
        return if read.None? || read.value.None? then Err(CommitUnknown)
               else if SameAuthority(read.value.value, session) && read.value.value.token == session.token
               then Ok(read.value.value) else Err(InvalidSession);
      case Conflict => return Err(InvalidSession);
      case Broken => return Err(StoreBroken);
    }
    var observed, updated, expected := persisted.value, session, persisted.value;
    ghost var whole := Write(store.others, store.shelf, session, observed, updated, expected, TRIES);
    for k := 0 to TRIES
      invariant whole == Write(store.others, store.shelf, session, observed, updated, expected, TRIES - k)
    {
      var wanted := expected;
      var reply := store.Commit((row: Option<Row>) => row == Some(wanted), Some(updated));
      match reply
      case Done =>
        var read := store.Read();
        return if read.None? then Err(StoreBroken)
               else if read.value.None? || !SameAuthority(read.value.value, updated)
                 || read.value.value.token != updated.token
               then Err(InvalidSession) else Ok(read.value.value);
      case Unknown => return Err(CommitUnknown);
      case Broken => return Err(StoreBroken);
      case Conflict =>
        var read := store.Read();
        if read.None? {
          return Err(StoreBroken);
        }
        if read.value.None? {
          return Err(InvalidSession);
        }
        var current := read.value.value;
        if !SameAuthority(current, session) || current.token != observed.token {
          return Err(InvalidSession);
        }
        updated := updated.(lastSeen := Max(updated.lastSeen, current.lastSeen),
                            idleExpiresAt := Min(Max(updated.idleExpiresAt, current.idleExpiresAt), updated.expiresAt));
        expected := current;
    }
    return Err(RateLimited);
  }

  /** Remove a session that has run out, unless somebody has renewed it meanwhile. */
  method RetireExpired(store: SessionStore, session: Row, now: int) returns (r: Result<(), Failure>)
    modifies store
    ensures LiveAt(session, now) ==> r == Ok(()) && store.shelf == old(store.shelf)
    ensures !LiveAt(session, now) ==>
      var (after, reply) := Delete(store.others, old(store.shelf), Some(session));
      && store.shelf == after
      && r == if reply.Done? || reply.Conflict? then Ok(()) else if reply.Unknown? then Err(CommitUnknown)
        else Err(StoreBroken)
  {
    if LiveAt(session, now) {
      return Ok(());
    }
    var reply := store.Commit((row: Option<Row>) => row == Some(session), None);
    return if reply.Done? || reply.Conflict? then Ok(()) else if reply.Unknown? then Err(CommitUnknown)
      else Err(StoreBroken);
  }

  // ----- what one call may change -----

  datatype Change = Change(before: Row, after: Row)

  /** The changes a call makes to the row, whether or not it learns of them. */
  function Changes(o: Others, s: Shelf, session: Row, observed: Row, updated: Row, expected: Row,
      left: nat): seq<Change>
    decreases left
  {
    if left == 0 then []
    else
      var agrees, fate := Seen(o, s) == Some(expected), o.fate(s.moment);
      if agrees && (fate.Normal? || (fate.Lost? && fate.landed)) then [Change(expected, updated)]
      else if agrees || !fate.Normal? then []
      else
        var (u, next) := Reconsidered(o, CompareReplace(o, s, expected, updated).0, session, observed, updated);
        if next.Again? then Changes(o, u, session, observed, next.updated, next.expected, left - 1) else []
  }

  /** The update never takes the row back: same life-long fields, activity no older. */
  predicate Advances(a: Row, b: Row) {
    && SameAuthority(a, b) && a.lastSeen <= b.lastSeen
      && Min(a.idleExpiresAt, b.expiresAt) <= b.idleExpiresAt <= b.expiresAt
  }

  /** Whatever the others do, a call changes the row at most once, and only from the token it
      observed; it reports success only after a change whose token it has read back. */
  lemma {:induction false} WriteChangesOnce(
    o: Others, s: Shelf, session: Row, observed: Row, updated: Row, expected: Row, left: nat)
    requires SameAuthority(observed, session) && Advances(expected, updated) && SameAuthority(updated, session)
    requires expected.token == observed.token && updated.token == session.token
    requires updated.lastSeen >= session.lastSeen && updated.idleExpiresAt >= session.idleExpiresAt
    ensures var all := Changes(o, s, session, observed, updated, expected, left);
      var (_, r) := Write(o, s, session, observed, updated, expected, left);
      && |all| <= 1
      && (all != [] ==>
            && all[0].before.token == observed.token && all[0].after.token == session.token
            && Advances(all[0].before, all[0].after)
            && all[0].after.lastSeen >= session.lastSeen && all[0].after.idleExpiresAt >= session.idleExpiresAt)
      && (r.Ok? ==> |all| == 1 && SameAuthority(r.value, session) && r.value.token == session.token)
      && (r == Err(RateLimited) ==> all == [])
    decreases left
  {
    if left > 0 {
      var (t, reply) := CompareReplace(o, s, expected, updated);
      if reply.Conflict? {
        var (u, next) := Reconsidered(o, t, session, observed, updated);
        if next.Again? {
          WriteChangesOnce(o, u, session, observed, next.updated, next.expected, left - 1);
        }
      }
    }
  }

  // ----- everyone at once -----

  datatype Phase = Observing | Replacing | Rereading | Confirming

  /** A renewal or refresh in progress: it has read the row, and then works on an update of it; a
      refresh has a token of its own. */
  datatype Client = Client(observed: Row, session: Row, updated: Row, expected: Row, tries: nat, phase: Phase)

  /** The row, the clock, every token issued so far, every token that has been replaced, and the
      calls in progress. */
  datatype World = World(row: Option<Row>, clock: int, issued: set<nat>, retired: set<nat>, clients: map<nat, Client>)

  datatype Act =
    | Wait(span: nat)
    | Enter(who: nat)
    | Prepare(who: nat, token: Option<nat>)
    | Replace(who: nat, fate: Fate)
    | Reread(who: nat)
    | Confirm(who: nat)
    | GiveUp(who: nat)
    | Drop(expected: Option<Row>)
    | Open(row: Row)

  /** A call reads the row, and later looks at the clock and prepares its update if the row it has
      read is still alive; a refresh draws a token that was never issued before, and so does a
      session that is opened where there is none. */
  predicate Enabled(w: World, a: Act, ttl: nat) {
    match a
    case Wait(_) => true
    case Enter(who) => who !in w.clients && w.row.Some?
    case Prepare(who, token) =>
      who in w.clients && w.clients[who].phase == Observing && (token.Some? ==> token.value !in w.issued)
    case Replace(who, _) => who in w.clients && w.clients[who].phase == Replacing && w.clients[who].tries < TRIES
    case Reread(who) => who in w.clients && w.clients[who].phase == Rereading
    case Confirm(who) => who in w.clients && w.clients[who].phase == Confirming
    case GiveUp(who) => who in w.clients && w.clients[who].phase == Replacing && w.clients[who].tries == TRIES
    case Drop(_) => true
    case Open(row) => w.row.None? && row.token !in w.issued && Earned(row, ttl) && row.lastSeen <= w.clock
  }

  /** A row whose idle expiry is what its last activity earns. */
  predicate Earned(row: Row, ttl: nat) { row.idleExpiresAt == Min(Later(row.lastSeen, ttl), row.expiresAt) }

  function Leave(w: World, who: nat): World { w.(clients := w.clients - {who}) }

  function Put(w: World, who: nat, c: Client): World { w.(clients := w.clients[who := c]) }

  /** The row is changed to `updated`; a new token retires the old one. */
  function Landed(w: World, c: Client): World {
    w.(row := Some(c.updated),
       retired := if c.updated.token != c.expected.token then w.retired + {c.expected.token} else w.retired)
  }

  function Next(w: World, a: Act, ttl: nat): World
    requires Enabled(w, a, ttl)
  {
    match a
    case Wait(span) => w.(clock := w.clock + span)
    case Enter(who) =>
      var observed := w.row.value;
      Put(w, who, Client(observed, observed, observed, observed, 0, Observing))
    case Prepare(who, token) =>
      var observed := w.clients[who].observed;
      var renewed := Renewed(observed, w.clock, ttl);
      var session := if token.Some? then renewed.(token := token.value) else renewed;
      if !LiveAt(observed, w.clock) then Leave(w, who)
      else
        Put(w, who, Client(observed, session, session, observed, 0, Replacing)).(
          issued := if token.Some? then w.issued + {token.value} else w.issued)
    case Replace(who, fate) =>
      var c := w.clients[who];
      var agrees := w.row == Some(c.expected);
      (match fate
       case Refused => Leave(w, who)
       case Lost(landed) => Leave(if agrees && landed then Landed(w, c) else w, who)
       case Normal =>
         if agrees then Put(Landed(w, c), who, c.(phase := Confirming)) else Put(w, who, c.(phase := Rereading)))
    case Reread(who) =>
      var c := w.clients[who];
      if w.row.Some? && SameAuthority(w.row.value, c.session) && w.row.value.token == c.observed.token
      then Put(w, who, c.(updated := Merged(c.updated, w.row.value), expected := w.row.value, tries := c.tries + 1,
        phase := Replacing))
      else Leave(w, who)
    case Confirm(who) => Leave(w, who)
    case GiveUp(who) => Leave(w, who)
    case Drop(expected) => if expected.None? || w.row == expected then w.(row := None) else w
    case Open(row) => w.(row := Some(row), issued := w.issued + {row.token})
  }

  /** A pending call: it has not touched the row, and its update extends the row it expects. */
  ghost predicate ClientOk(w: World, c: Client, ttl: nat) {
    && Earned(c.updated, ttl) && Earned(c.expected, ttl) && c.updated.lastSeen <= w.clock
    && SameAuthority(c.observed, c.session) && SameAuthority(c.updated, c.session)
      && SameAuthority(c.expected, c.session)
    && c.expected.token == c.observed.token && c.updated.token == c.session.token
    && c.expected.lastSeen <= c.updated.lastSeen
    && (c.phase == Observing ==> c == Client(c.observed, c.observed, c.observed, c.observed, 0, Observing))
    && c.session.token in w.issued && c.observed.token in w.issued
  }

  /** A refresh that has not landed holds a token nobody else has. */
  ghost predicate Pending(c: Client) { c.phase != Confirming && c.session.token != c.observed.token }

  ghost predicate WorldOk(w: World, ttl: nat) {
    && (w.row.Some? ==> Earned(w.row.value, ttl) && w.row.value.lastSeen <= w.clock
                        && w.row.value.token in w.issued && w.row.value.token !in w.retired)
    && w.retired <= w.issued
    && (forall who :: who in w.clients ==> ClientOk(w, w.clients[who], ttl))
    && (forall who :: who in w.clients && Pending(w.clients[who]) ==>
          var t := w.clients[who].session.token;
          && t !in w.retired && (w.row.Some? ==> w.row.value.token != t))
    && (forall x, y :: x in w.clients && y in w.clients && x != y && Pending(w.clients[x]) ==>
          w.clients[x].session.token != w.clients[y].session.token
            && w.clients[x].session.token != w.clients[y].observed.token)
  }

  lemma LeaveOk(w: World, who: nat, ttl: nat)
    requires WorldOk(w, ttl)
    ensures WorldOk(Leave(w, who), ttl)
  {
  }

  /** Two updates of one row that each carry what they earned merge into one that does. */
  lemma MergeEarned(a: Row, b: Row, ttl: nat)
    requires Earned(a, ttl) && Earned(b, ttl) && SameAuthority(a, b)
    ensures Earned(Merged(a, b), ttl)
  {
  }

  lemma PrepareOk(w: World, who: nat, token: Option<nat>, ttl: nat)
    requires WorldOk(w, ttl) && Enabled(w, Prepare(who, token), ttl)
    ensures WorldOk(Next(w, Prepare(who, token), ttl), ttl)
  {
    LeaveOk(w, who, ttl);
  }

  lemma PassiveOk(w: World, a: Act, ttl: nat)
    requires WorldOk(w, ttl) && Enabled(w, a, ttl) && (a.Wait? || a.Enter? || a.Drop?)
    ensures WorldOk(Next(w, a, ttl), ttl)
  {
    hide Earned;
  }

  lemma ReplaceOk(w: World, who: nat, fate: Fate, ttl: nat)
    requires WorldOk(w, ttl) && Enabled(w, Replace(who, fate), ttl)
    ensures WorldOk(Next(w, Replace(who, fate), ttl), ttl)
  {
    LeaveOk(w, who, ttl);
    if w.row == Some(w.clients[who].expected) {
      LandedOk(w, who, ttl);
    } else {
      RetryOk(w, who, ttl);
    }
    hide WorldOk;
  }

  lemma RetryOk(w: World, who: nat, ttl: nat)
    requires WorldOk(w, ttl) && who in w.clients && w.clients[who].phase == Replacing
    ensures WorldOk(Put(w, who, w.clients[who].(phase := Rereading)), ttl)
  {
    hide Earned;
  }

  lemma OpenOk(w: World, row: Row, ttl: nat)
    requires WorldOk(w, ttl) && Enabled(w, Open(row), ttl)
    ensures WorldOk(Next(w, Open(row), ttl), ttl)
  {
    hide Earned;
  }

  lemma LandedOk(w: World, who: nat, ttl: nat)
    requires WorldOk(w, ttl) && who in w.clients && w.clients[who].phase == Replacing
      && w.row == Some(w.clients[who].expected)
    ensures WorldOk(Leave(Landed(w, w.clients[who]), who), ttl)
    ensures WorldOk(Put(Landed(w, w.clients[who]), who, w.clients[who].(phase := Confirming)), ttl)
  {
  }

  lemma RereadOk(w: World, who: nat, ttl: nat)
    requires WorldOk(w, ttl) && Enabled(w, Reread(who), ttl)
    ensures WorldOk(Next(w, Reread(who), ttl), ttl)
  {
    var c := w.clients[who];
    if w.row.Some? && SameAuthority(w.row.value, c.session) && w.row.value.token == c.observed.token {
      MergeEarned(c.updated, w.row.value, ttl);
      hide Earned, Merged;
    } else {
      LeaveOk(w, who, ttl);
    }
  }

  /** Every step of every call keeps the world in order. */
  lemma NextOk(w: World, a: Act, ttl: nat)
    requires WorldOk(w, ttl) && Enabled(w, a, ttl)
    ensures WorldOk(Next(w, a, ttl), ttl)
  {
    hide WorldOk, Earned;
    match a
    case Wait(_) => PassiveOk(w, a, ttl);
    case Enter(_) => PassiveOk(w, a, ttl);
    case Prepare(who, token) => PrepareOk(w, who, token, ttl);
    case Replace(who, fate) => ReplaceOk(w, who, fate, ttl);
    case Reread(who) => RereadOk(w, who, ttl);
    case Confirm(who) => LeaveOk(w, who, ttl);
    case GiveUp(who) => LeaveOk(w, who, ttl);
    case Drop(_) => PassiveOk(w, a, ttl);
    case Open(row) => OpenOk(w, row, ttl);
  }

  // ----- whole runs -----

  /** A newly created session that nobody has used yet. */
  ghost predicate Opening(w: World, ttl: nat) {
    && w.row.Some? && Earned(w.row.value, ttl) && w.row.value.lastSeen <= w.clock
    && w.issued == {w.row.value.token} && w.retired == {} && w.clients == map[]
  }

  /** Any interleaving of calls on one session with one idle limit and a clock that never moves back. */
  ghost predicate IsRun(worlds: seq<World>, acts: seq<Act>, ttl: nat) {
    && |worlds| == |acts| + 1 && Opening(worlds[0], ttl)
    && forall k :: 0 <= k < |acts| ==>
      Enabled(worlds[k], acts[k], ttl) && worlds[k + 1] == Next(worlds[k], acts[k], ttl)
  }

  lemma {:induction false} WorldAt(worlds: seq<World>, acts: seq<Act>, ttl: nat, k: nat)
    requires IsRun(worlds, acts, ttl) && k <= |acts|
    ensures WorldOk(worlds[k], ttl)
    decreases k
  {
    if k > 0 {
      WorldAt(worlds, acts, ttl, k - 1);
      NextOk(worlds[k - 1], acts[k - 1], ttl);
    }
  }

  /** A call changes the row in this step. */
  predicate Lands(w: World, a: Act) {
    && a.Replace? && a.who in w.clients && w.clients[a.who].phase == Replacing
      && w.row == Some(w.clients[a.who].expected)
    && (a.fate.Normal? || (a.fate.Lost? && a.fate.landed))
  }

  /** A refresh changes the row in this step. */
  predicate Rotates(w: World, a: Act) {
    Lands(w, a) && w.clients[a.who].session.token != w.clients[a.who].observed.token
  }

  /** What one step does to the row. */
  lemma StepChanges(w: World, a: Act, ttl: nat)
    requires WorldOk(w, ttl) && Enabled(w, a, ttl)
    ensures var n := Next(w, a, ttl);
      && w.retired <= n.retired && w.issued <= n.issued && (w.row.None? && n.row.Some? ==> a == Open(n.row.value))
      && (Rotates(w, a) ==> w.clients[a.who].observed.token in n.retired)
      && (n.row != w.row && n.row.Some? && !a.Open? ==>
        Lands(w, a) && n.row.value.token == w.clients[a.who].session.token)
      && (w.row.Some? && n.row.Some? ==> Advances(w.row.value, n.row.value))
      && (w.row.Some? && n.row.Some? && !Rotates(w, a) ==> n.row.value.token == w.row.value.token)
  {
  }

  /** No session is opened between the two moments. */
  predicate OneSession(acts: seq<Act>, i: nat, j: nat)
    requires i <= j <= |acts|
  {
    forall k :: i <= k < j ==> !acts[k].Open?
  }

  lemma {:induction false} RunChanges(worlds: seq<World>, acts: seq<Act>, ttl: nat, i: nat, j: nat)
    requires IsRun(worlds, acts, ttl) && i <= j <= |acts|
    ensures worlds[i].retired <= worlds[j].retired && worlds[i].issued <= worlds[j].issued
    ensures OneSession(acts, i, j) ==>
      && (worlds[i].row.None? ==> worlds[j].row.None?)
      && (worlds[i].row.Some? && worlds[j].row.Some? ==> Advances(worlds[i].row.value, worlds[j].row.value))
    decreases j
  {
    WorldAt(worlds, acts, ttl, i);
    if i < j {
      RunChanges(worlds, acts, ttl, i, j - 1);
      WorldAt(worlds, acts, ttl, j - 1);
      StepChanges(worlds[j - 1], acts[j - 1], ttl);
      hide WorldOk, Enabled, Next, Opening;
    }
  }

  /** Once a refresh has landed, no call that observed the old token lands any more: at most one
      refresh from an observed token commits, and no renewal undoes a rotation. */
  lemma RotationIsFinal(worlds: seq<World>, acts: seq<Act>, ttl: nat, i: nat, j: nat)
    requires IsRun(worlds, acts, ttl) && i < j < |acts| && Rotates(worlds[i], acts[i]) && Lands(worlds[j], acts[j])
    ensures worlds[j].clients[acts[j].who].observed.token != worlds[i].clients[acts[i].who].observed.token
  {
    WorldAt(worlds, acts, ttl, i);
    WorldAt(worlds, acts, ttl, j);
    StepChanges(worlds[i], acts[i], ttl);
    RunChanges(worlds, acts, ttl, i + 1, j);
    hide Next, Opening;
  }

  /** Tokens of `past` belong to a session that is gone: no row has one, and nobody can bring one back. */
  ghost predicate Gone(w: World, past: set<nat>) {
    && past <= w.issued && (w.row.Some? ==> w.row.value.token !in past)
    && forall who :: who in w.clients && w.clients[who].session.token in past ==> w.clients[who].observed.token in past
  }

  lemma StaysGone(w: World, a: Act, ttl: nat, past: set<nat>)
    requires WorldOk(w, ttl) && Enabled(w, a, ttl) && Gone(w, past)
    ensures Gone(Next(w, a, ttl), past)
  {
  }

  lemma {:induction false} RunGone(worlds: seq<World>, acts: seq<Act>, ttl: nat, i: nat, j: nat)
    requires IsRun(worlds, acts, ttl) && i <= j <= |acts| && worlds[i].row.None?
    ensures Gone(worlds[j], worlds[i].issued)
    decreases j
  {
    WorldAt(worlds, acts, ttl, i);
    if i < j {
      RunGone(worlds, acts, ttl, i, j - 1);
      WorldAt(worlds, acts, ttl, j - 1);
      StaysGone(worlds[j - 1], acts[j - 1], ttl, worlds[i].issued);
      hide WorldOk, Enabled, Next, Opening;
    }
  }

  /** A deleted session never comes back: a row that is there later belongs to a session that has
      been opened in the meantime, and its token had not been issued before. */
  lemma DeletedForGood(worlds: seq<World>, acts: seq<Act>, ttl: nat, i: nat, j: nat)
    requires IsRun(worlds, acts, ttl) && i <= j <= |acts| && worlds[i].row.None?
    ensures OneSession(acts, i, j) ==> worlds[j].row.None?
    ensures worlds[j].row.Some? ==> worlds[j].row.value.token !in worlds[i].issued
  {
    RunChanges(worlds, acts, ttl, i, j);
    RunGone(worlds, acts, ttl, i, j);
    hide IsRun;
  }

  /** While no other session is opened, activity never moves back, the idle expiry never moves back
      or past the hard expiry, and the life-long fields never change. */
  lemma ActivityAdvances(worlds: seq<World>, acts: seq<Act>, ttl: nat, i: nat, j: nat)
    requires IsRun(worlds, acts, ttl) && i <= j <= |acts| && worlds[i].row.Some? && worlds[j].row.Some?
    requires OneSession(acts, i, j)
    ensures var a, b := worlds[i].row.value, worlds[j].row.value;
      && SameAuthority(a, b) && a.lastSeen <= b.lastSeen && a.idleExpiresAt <= b.idleExpiresAt <= b.expiresAt
  {
    RunChanges(worlds, acts, ttl, i, j);
    WorldAt(worlds, acts, ttl, i);
  }

  // ----- one call among everyone -----

  /** Whose call takes this step. */
  function Actor(a: Act): Option<nat> {
    match a
    case Enter(who) => Some(who)
    case Prepare(who, _) => Some(who)
    case Replace(who, _) => Some(who)
    case Reread(who) => Some(who)
    case Confirm(who) => Some(who)
    case GiveUp(who) => Some(who)
    case _ => None
  }

  /** The moments at which the call of `who` takes its steps, with none left out in between. */
  ghost predicate Turns(acts: seq<Act>, who: nat, times: seq<nat>) {
    && (forall k :: 0 <= k < |times| ==> times[k] < |acts| && Actor(acts[times[k]]) == Some(who)
                                         && !acts[times[k]].Enter? && !acts[times[k]].Prepare?)
    && (forall k, i :: 0 <= k < |times| - 1 && times[k] < i < times[k + 1] ==> Actor(acts[i]) != Some(who))
    && (forall k :: 0 <= k < |times| - 1 ==> times[k] < times[k + 1])
  }

  /** What the others do as the call of `who` sees it. */
  ghost function View(worlds: seq<World>, acts: seq<Act>, times: seq<nat>): Others {
    Others((m: nat, _: Option<Row>) => if m < |times| && times[m] < |worlds| then worlds[times[m]].row else None,
           (m: nat) =>
             if m < |times| && times[m] < |acts| && acts[times[m]].Replace? then acts[times[m]].fate else Normal)
  }

  /** The changes the call makes to the row from its step `m` on. */
  ghost function Made(worlds: seq<World>, acts: seq<Act>, times: seq<nat>, m: nat): seq<Change>
    requires |worlds| == |acts| + 1 && forall k :: 0 <= k < |times| ==> times[k] < |acts|
    decreases |times| - m
  {
    if m >= |times| then []
    else
      var w, a := worlds[times[m]], acts[times[m]];
      (if Lands(w, a) then [Change(w.clients[a.who].expected, w.clients[a.who].updated)] else []) +
        Made(worlds, acts, times, m + 1)
  }

  lemma StepAlone(w: World, a: Act, ttl: nat, who: nat)
    requires Enabled(w, a, ttl) && Actor(a) != Some(who)
    ensures var n := Next(w, a, ttl);
      (who in n.clients <==> who in w.clients) && (who in w.clients ==> n.clients[who] == w.clients[who])
  {
  }

  /** Between its steps a call stands still. */
  lemma {:induction false} StandsStill(worlds: seq<World>, acts: seq<Act>, ttl: nat, who: nat, i: nat, j: nat)
    requires IsRun(worlds, acts, ttl) && i <= j <= |acts| && forall k :: i <= k < j ==> Actor(acts[k]) != Some(who)
    ensures who in worlds[j].clients <==> who in worlds[i].clients
    ensures who in worlds[i].clients ==> worlds[j].clients[who] == worlds[i].clients[who]
    decreases j
  {
    if i < j {
      StandsStill(worlds, acts, ttl, who, i, j - 1);
      StepAlone(worlds[j - 1], acts[j - 1], ttl, who);
      hide Next, Enabled, Opening;
    }
  }

  /** A call that has ended takes no more steps, and one that goes on is found as it was left. */
  lemma NextTurn(worlds: seq<World>, acts: seq<Act>, ttl: nat, who: nat, times: seq<nat>, m: nat)
    requires IsRun(worlds, acts, ttl) && Turns(acts, who, times) && m < |times|
    ensures who !in worlds[times[m] + 1].clients ==> m + 1 == |times|
    ensures who in worlds[times[m] + 1].clients && m + 1 < |times| ==>
      who in worlds[times[m + 1]].clients && worlds[times[m + 1]].clients[who] == worlds[times[m] + 1].clients[who]
  {
    if m + 1 < |times| {
      StandsStill(worlds, acts, ttl, who, times[m] + 1, times[m + 1]);
      TakesPart(worlds[times[m + 1]], acts[times[m + 1]], ttl, who);
    }
  }

  lemma TakesPart(w: World, a: Act, ttl: nat, who: nat)
    requires Enabled(w, a, ttl) && Actor(a) == Some(who) && !a.Enter?
    ensures who in w.clients
  {
  }

  /** After a call that has landed or ended, nothing more is made. */
  lemma NoMore(worlds: seq<World>, acts: seq<Act>, ttl: nat, who: nat, times: seq<nat>, m: nat)
    requires IsRun(worlds, acts, ttl) && Turns(acts, who, times) && m < |times|
    requires who in worlds[times[m] + 1].clients ==> worlds[times[m] + 1].clients[who].phase == Confirming
    ensures Made(worlds, acts, times, m + 1) == []
  {
    NextTurn(worlds, acts, ttl, who, times, m);
    if m + 1 < |times| {
      NextTurn(worlds, acts, ttl, who, times, m + 1);
      assert acts[times[m + 1]].Confirm?;
      hide Opening;
    }
  }

  /** What the first step of a try does, in the world and to the call. */
  lemma TryStep(w: World, a: Act, ttl: nat, who: nat)
    requires Enabled(w, a, ttl) && Actor(a) == Some(who) && !a.Enter? && !a.Prepare?
    requires who in w.clients && w.clients[who].phase == Replacing
    ensures var n, c := Next(w, a, ttl), w.clients[who];
      && (a.GiveUp? <==> c.tries == TRIES) && (a.Replace? <==> c.tries < TRIES) && (a.GiveUp? ==> who !in n.clients)
      && (a.Replace? && Lands(w, a) ==> who in n.clients ==> n.clients[who].phase == Confirming)
      && (a.Replace? && !Lands(w, a) ==>
            if a.fate.Normal? then who in n.clients && n.clients[who] == c.(phase := Rereading) else who !in n.clients)
  {
  }

  lemma RereadStep(w: World, a: Act, ttl: nat, who: nat)
    requires Enabled(w, a, ttl) && Actor(a) == Some(who) && !a.Enter? && !a.Prepare?
    requires who in w.clients && w.clients[who].phase == Rereading
    ensures var n, c := Next(w, a, ttl), w.clients[who];
      && a == Reread(who)
      && if w.row.Some? && SameAuthority(w.row.value, c.session) && w.row.value.token == c.observed.token
         then who in n.clients && n.clients[who] ==
              c.(updated := Merged(c.updated, w.row.value), expected := w.row.value, tries := c.tries + 1,
                phase := Replacing)
         else who !in n.clients
  {
  }

  /** A call among everyone does to the row what the retry loop does against the others as it sees
      them: the interleaved world and the loop are two views of one thing. */
  lemma {:induction false} CallAsSeen(
    worlds: seq<World>, acts: seq<Act>, ttl: nat, who: nat, times: seq<nat>, m: nat, c: Client, left: nat, s: Shelf)
    requires IsRun(worlds, acts, ttl) && Turns(acts, who, times) && m <= |times| && s.moment == m
    requires m < |times| ==> who in worlds[times[m]].clients && worlds[times[m]].clients[who] == c
    requires c.phase == Replacing && c.tries + left == TRIES
    ensures Changes(View(worlds, acts, times), s, c.session, c.observed, c.updated, c.expected, left) ==
      Made(worlds, acts, times, m)
    decreases left
  {
    hide IsRun, Turns, Next, Enabled, Lands, Merged;
    if m < |times| {
      TurnAt(worlds, acts, ttl, who, times, m);
      var w, a := worlds[times[m]], acts[times[m]];
      TryStep(w, a, ttl, who);
      LandsIs(w, a, who);
      if a.Replace? && !Lands(w, a) && a.fate.Normal? {
        NextTurn(worlds, acts, ttl, who, times, m);
        if m + 1 < |times| {
          TurnAt(worlds, acts, ttl, who, times, m + 1);
          RereadStep(worlds[times[m + 1]], acts[times[m + 1]], ttl, who);
          NextTurn(worlds, acts, ttl, who, times, m + 1);
          LandsIs(worlds[times[m + 1]], acts[times[m + 1]], who);
          var o := View(worlds, acts, times);
          var (u, next) := Reconsidered(o, CompareReplace(o, s, c.expected, c.updated).0, c.session, c.observed,
            c.updated);
          if next.Again? {
            CallAsSeen(worlds, acts, ttl, who, times, m + 2,
                       c.(updated := next.updated, expected := next.expected, tries := c.tries + 1), left - 1, u);
          } else {
            NoMore(worlds, acts, ttl, who, times, m + 1);
          }
        }
      } else {
        NoMore(worlds, acts, ttl, who, times, m);
      }
    }
  }

  lemma TurnAt(worlds: seq<World>, acts: seq<Act>, ttl: nat, who: nat, times: seq<nat>, m: nat)
    requires IsRun(worlds, acts, ttl) && Turns(acts, who, times) && m < |times|
    ensures times[m] < |acts| && |worlds| == |acts| + 1
    ensures var w, a := worlds[times[m]], acts[times[m]];
      && Enabled(w, a, ttl) && worlds[times[m] + 1] == Next(w, a, ttl)
      && Actor(a) == Some(who) && !a.Enter? && !a.Prepare?
  {
    hide Next, Enabled, Opening;
  }

  lemma LandsIs(w: World, a: Act, who: nat)
    requires Actor(a) == Some(who) && who in w.clients
    ensures Lands(w, a) <==>
      && a.Replace? && w.clients[who].phase == Replacing && w.row == Some(w.clients[who].expected)
      && (a.fate.Normal? || (a.fate.Lost? && a.fate.landed))
  {
  }
}
