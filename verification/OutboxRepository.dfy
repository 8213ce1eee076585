/** The worker's outbox queries with their time columns; every update is a step of the protocol. */
module OutboxRepository {
  import opened Store
  import opened OutboxProtocol
  import opened Database

  type Rows = map<EventKey, OutboxRow>

  /** When rows become available: at their creation until a retry or a recovery moves that. */
  datatype Schedule = Schedule(createdAt: EventKey -> int, availableAt: map<EventKey, int>) {
    function At(key: EventKey): int {
      if key in availableAt then availableAt[key] else createdAt(key)
    }

    /** `ORDER BY "availableAt" ASC, "createdAt" ASC`. */
    predicate Before(k: EventKey, l: EventKey) {
      At(k) < At(l) || (At(k) == At(l) && createdAt(k) < createdAt(l))
    }

    predicate Claimable(key: EventKey, rows: Rows, now: int) {
      key in rows && rows[key].claim.status.Pending? && At(key) <= now
    }
  }

  /** The row as `claimPending` returned it: its `attempts` stays fixed while the handler works. */
  datatype Ticket = Ticket(key: EventKey, attempts: nat)

  /** The row is claimed and the ticket's handler has just started. */
  predicate IsHeld(ticket: Ticket, rows: Rows) {
    && ticket.key in rows
    && var claim := rows[ticket.key].claim;
       claim.status.Processing? && ticket.attempts in claim.handlers && claim.handlers[ticket.attempts] == AtStart
  }

  // ---------- Runs of row steps ----------

  datatype RowMove = RowMove(key: EventKey, step: RowStep)

  function Moved(rows: Rows, move: RowMove, maxAttempts: nat): Rows {
    if move.key in rows
    then rows[move.key := rows[move.key].(claim := OutboxProtocol.Apply(rows[move.key].claim, move.step, maxAttempts))]
    else rows
  }

  function Moves(rows: Rows, moves: seq<RowMove>, maxAttempts: nat): Rows
    decreases |moves|
  {
    if moves == [] then rows
    else Moved(Moves(rows, moves[..|moves| - 1], maxAttempts), moves[|moves| - 1], maxAttempts)
  }

  lemma MovesSnoc(rows: Rows, moves: seq<RowMove>, move: RowMove, maxAttempts: nat)
    ensures Moves(rows, moves + [move], maxAttempts) == Moved(Moves(rows, moves, maxAttempts), move, maxAttempts)
  {
    assert (moves + [move])[..|moves + [move]| - 1] == moves;
  }

  ghost predicate Only(moves: seq<RowMove>, step: RowStep) {
    forall i | 0 <= i < |moves| :: moves[i].step == step
  }

  // ---------- Claiming a batch ----------

  ghost predicate IsFirst(key: EventKey, rows: Rows, s: Schedule, now: int) {
    s.Claimable(key, rows, now) && forall k | s.Claimable(k, rows, now) :: !s.Before(k, key)
  }

  /** The tickets are for different rows, in the order of the query, and no row left over comes before
      a claimed one. */
  ghost predicate InOrder(claimed: seq<Ticket>, rows: Rows, s: Schedule, now: int) {
    && (forall i, j | 0 <= i < j < |claimed| ::
          claimed[i].key != claimed[j].key && !s.Before(claimed[j].key, claimed[i].key))
    && (forall i, k | 0 <= i < |claimed| && s.Claimable(k, rows, now) :: !s.Before(k, claimed[i].key))
  }

  /** Each ticket is for a row that was claimable, and counts the claims of that row. */
  ghost predicate Fresh(claimed: seq<Ticket>, rows: Rows, s: Schedule, now: int) {
    forall i | 0 <= i < |claimed| ::
      s.Claimable(claimed[i].key, rows, now) && claimed[i].attempts == rows[claimed[i].key].claim.attempts + 1
  }

  ghost predicate DistinctKeys(claimed: seq<Ticket>) {
    forall i, j | 0 <= i < j < |claimed| :: claimed[i].key != claimed[j].key
  }

  function TicketKeys(claimed: seq<Ticket>): set<EventKey> {
    set t | t in claimed :: t.key
  }

  /** Exactly the rows with these keys were claimed, once each. */
  ghost predicate TookExactly(rows: Rows, later: Rows, keys: set<EventKey>, max: nat) {
    && later.Keys == rows.Keys
    && forall k | k in rows ::
         later[k] == if k in keys
                     then rows[k].(claim := OutboxProtocol.Apply(rows[k].claim, Acquire, max)) else rows[k]
  }

  lemma TookOneMore(rows: Rows, later: Rows, claimed: seq<Ticket>, ticket: Ticket, max: nat)
    requires TookExactly(rows, later, TicketKeys(claimed), max) && ticket.key in rows && ticket.key !in TicketKeys(claimed)
    ensures TookExactly(rows, Moved(later, RowMove(ticket.key, Acquire), max), TicketKeys(claimed + [ticket]), max)
  {
    KeysOfMore(claimed, ticket);
  }

  lemma KeysOfMore(claimed: seq<Ticket>, ticket: Ticket)
    ensures TicketKeys(claimed + [ticket]) == TicketKeys(claimed) + {ticket.key}
  {
    assert ticket in claimed + [ticket];
    assert forall t | t in claimed :: t in claimed + [ticket];
  }

  lemma KeysInAnyOrder(claimed: seq<Ticket>, selected: seq<Ticket>)
    requires multiset(claimed) == multiset(selected)
    ensures TicketKeys(claimed) == TicketKeys(selected)
    ensures forall t :: t in claimed <==> t in selected
  {
    assert forall t :: t in claimed <==> t in multiset(claimed);
    assert forall t :: t in selected <==> t in multiset(selected);
  }

  /** A row that can still be claimed is none of the held ones. */
  lemma ClaimableIsNew(claimed: seq<Ticket>, rows: Rows, key: EventKey)
    requires AllHeld(claimed, rows) && key in rows && rows[key].claim.status.Pending?
    ensures key !in TicketKeys(claimed)
  {
    forall t | t in claimed ensures t.key != key {
      var i :| 0 <= i < |claimed| && claimed[i] == t;
      assert IsHeld(claimed[i], rows);
    }
  }

  ghost predicate AllHeld(claimed: seq<Ticket>, rows: Rows) {
    forall i | 0 <= i < |claimed| :: IsHeld(claimed[i], rows)
  }

  /** The rows that can be claimed now. */
  function Left(rows: Rows, s: Schedule, now: int): set<EventKey> {
    set k | k in rows && s.Claimable(k, rows, now)
  }

  /** Rows that can still be claimed were not touched. */
  ghost predicate RestUntouched(rows: Rows, later: Rows, s: Schedule, now: int) {
    forall k | s.Claimable(k, later, now) :: k in rows && later[k] == rows[k]
  }

  lemma ClaimExtends(rows: Rows, later: Rows, claimed: seq<Ticket>, ticket: Ticket, s: Schedule, now: int, max: nat)
    requires Fresh(claimed, rows, s, now) && InOrder(claimed, later, s, now)
    requires AllHeld(claimed, later) && RestUntouched(rows, later, s, now)
    requires IsFirst(ticket.key, later, s, now) && ticket.attempts == later[ticket.key].claim.attempts + 1
    ensures var next := Moved(later, RowMove(ticket.key, Acquire), max);
            && Fresh(claimed + [ticket], rows, s, now) && InOrder(claimed + [ticket], next, s, now)
            && AllHeld(claimed + [ticket], next) && RestUntouched(rows, next, s, now)
  {
    var next := Moved(later, RowMove(ticket.key, Acquire), max);
    assert forall k | s.Claimable(k, next, now) :: s.Claimable(k, later, now) && k != ticket.key && next[k] == later[k];
    forall i | 0 <= i < |claimed| ensures IsHeld(claimed[i], next) && claimed[i].key != ticket.key {
      assert IsHeld(claimed[i], later);
    }
  }

  /** The query sees the rows that no other transaction has locked. */
  lemma ClaimOfUnlocked(rows: Rows, locked: set<EventKey>, key: EventKey, max: nat)
    requires key in rows - locked
    ensures Moved(rows, RowMove(key, Acquire), max) - locked == Moved(rows - locked, RowMove(key, Acquire), max)
    ensures forall k | k in locked && k in rows :: Moved(rows, RowMove(key, Acquire), max)[k] == rows[k]
  {
  }

  lemma InsertedTicket(claimed: seq<Ticket>, ticket: Ticket, i: nat)
    requires DistinctKeys(claimed) && i <= |claimed| && forall t | t in claimed :: t.key != ticket.key
    ensures var next := claimed[..i] + [ticket] + claimed[i..];
            DistinctKeys(next) && multiset(next) == multiset(claimed) + multiset{ticket}
  {
    assert claimed == claimed[..i] + claimed[i..];
  }

  lemma EarlierTickets(selected: seq<Ticket>, claimed: seq<Ticket>, i: nat)
    requires DistinctKeys(selected) && i < |selected| && multiset(claimed) == multiset(selected[..i])
    ensures forall t | t in claimed :: t.key != selected[i].key
  {
    forall t | t in claimed ensures t.key != selected[i].key {
      assert t in multiset(claimed);
      assert t in selected[..i];
    }
  }

  lemma AllHeldInAnyOrder(selected: seq<Ticket>, claimed: seq<Ticket>, rows: Rows)
    requires AllHeld(selected, rows) && multiset(claimed) == multiset(selected)
    ensures AllHeld(claimed, rows)
  {
    forall i | 0 <= i < |claimed| ensures IsHeld(claimed[i], rows) {
      assert claimed[i] in multiset(claimed);
      assert claimed[i] in selected;
    }
  }

  /** `RETURNING` yields the updated rows in no particular order. */
  method InSomeOrder(selected: seq<Ticket>) returns (claimed: seq<Ticket>)
    requires DistinctKeys(selected)
    ensures DistinctKeys(claimed) && multiset(claimed) == multiset(selected)
  {
    claimed := [];
    for i := 0 to |selected|
      invariant DistinctKeys(claimed) && multiset(claimed) == multiset(selected[..i])
    {
      var at :| 0 <= at <= |claimed|;
      EarlierTickets(selected, claimed, i);
      InsertedTicket(claimed, selected[i], at);
      TakeNext(selected, i);
      claimed := claimed[..at] + [selected[i]] + claimed[at..];
    }
    assert selected[..|selected|] == selected;
  }

  // ---------- Recovering leases ----------

  predicate Expired(key: EventKey, rows: Rows, claimedAt: map<EventKey, int>, before: int) {
    key in rows && rows[key].claim.status.Processing? && key in claimedAt && claimedAt[key] < before
  }

  /** What recovery makes of the rows whose keys were visited. */
  ghost predicate RecoveredIn(visited: set<EventKey>, rows: Rows, later: Rows, claimedAt: map<EventKey, int>,
                              before: int, max: nat)
  {
    && later.Keys == rows.Keys
    && forall k | k in rows ::
         later[k] == if k in visited && Expired(k, rows, claimedAt, before)
                     then rows[k].(claim := OutboxProtocol.Apply(rows[k].claim, Expire, max))
                     else rows[k]
  }

  /** The rows that recovery offers again are available from now on. */
  ghost predicate OfferedIn(visited: set<EventKey>, rows: Rows, s: Schedule, later: Schedule,
                            claimedAt: map<EventKey, int>, before: int, now: int, max: nat)
  {
    && later.createdAt == s.createdAt
    && forall k :: later.At(k) == if k in visited && Expired(k, rows, claimedAt, before) && rows[k].claim.attempts < max
                                  then now else s.At(k)
  }

  /** Their claim times are gone, all others stay. */
  ghost predicate ClearedIn(visited: set<EventKey>, rows: Rows, claimedAt: map<EventKey, int>,
                            later: map<EventKey, int>, before: int)
  {
    forall k :: (k in later <==> k in claimedAt && !(k in visited && Expired(k, rows, claimedAt, before)))
                && (k in later ==> later[k] == claimedAt[k])
  }

  lemma ClearExtends(visited: set<EventKey>, key: EventKey, rows: Rows, claimedAt: map<EventKey, int>,
                     later: map<EventKey, int>, next: map<EventKey, int>, before: int)
    requires ClearedIn(visited, rows, claimedAt, later, before)
    requires next == if Expired(key, rows, claimedAt, before) then later - {key} else later
    ensures ClearedIn(visited + {key}, rows, claimedAt, next, before)
  {
  }

  lemma RecoverExtends(visited: set<EventKey>, key: EventKey, rows: Rows, later: Rows, next: Rows,
                       claimedAt: map<EventKey, int>, before: int, max: nat)
    requires RecoveredIn(visited, rows, later, claimedAt, before, max) && key in rows && key !in visited
    requires next == if Expired(key, rows, claimedAt, before) then Moved(later, RowMove(key, Expire), max) else later
    ensures RecoveredIn(visited + {key}, rows, next, claimedAt, before, max)
  {
  }

  lemma OfferExtends(visited: set<EventKey>, key: EventKey, rows: Rows, s: Schedule, later: Schedule, next: Schedule,
                     claimedAt: map<EventKey, int>, before: int, now: int, max: nat)
    requires OfferedIn(visited, rows, s, later, claimedAt, before, now, max) && key in rows
    requires next == if Expired(key, rows, claimedAt, before) && rows[key].claim.attempts < max
                     then later.(availableAt := later.availableAt[key := now]) else later
    ensures OfferedIn(visited + {key}, rows, s, next, claimedAt, before, now, max)
  {
  }

  /** The three kinds of columns that recovery writes, before and after. */
  datatype Columns = Columns(rows: Rows, s: Schedule, claimedAt: map<EventKey, int>)

  ghost predicate Recovering(visited: set<EventKey>, was: Columns, cols: Columns, before: int, now: int, max: nat) {
    && RecoveredIn(visited, was.rows, cols.rows, was.claimedAt, before, max)
    && OfferedIn(visited, was.rows, was.s, cols.s, was.claimedAt, before, now, max)
    && ClearedIn(visited, was.rows, was.claimedAt, cols.claimedAt, before)
  }

  /** What the recovery of one row does to the columns. */
  function RecoverOne(key: EventKey, c: Columns, before: int, now: int, max: nat): Columns
    requires key in c.rows
  {
    if !Expired(key, c.rows, c.claimedAt, before) then c
    else
      Columns(Moved(c.rows, RowMove(key, Expire), max),
              if c.rows[key].claim.attempts < max then c.s.(availableAt := c.s.availableAt[key := now]) else c.s,
              c.claimedAt - {key})
  }

  lemma RecoveryExtends(visited: set<EventKey>, key: EventKey, was: Columns, c: Columns, before: int, now: int, max: nat)
    requires Recovering(visited, was, c, before, now, max) && key in c.rows && key !in visited
    ensures Recovering(visited + {key}, was, RecoverOne(key, c, before, now, max), before, now, max)
  {
    var next := RecoverOne(key, c, before, now, max);
    assert Expired(key, c.rows, c.claimedAt, before) == Expired(key, was.rows, was.claimedAt, before);
    RecoverExtends(visited, key, was.rows, c.rows, next.rows, was.claimedAt, before, max);
    OfferExtends(visited, key, was.rows, was.s, c.s, next.s, was.claimedAt, before, now, max);
    ClearExtends(visited, key, was.rows, was.claimedAt, c.claimedAt, next.claimedAt, before);
  }

  /** Recovery row by row. */
  function RecoverKeys(keys: seq<EventKey>, c: Columns, before: int, now: int, max: nat): (r: Columns)
    ensures r.rows.Keys == c.rows.Keys
  {
    if keys == [] then c
    else
      var earlier := RecoverKeys(keys[..|keys| - 1], c, before, now, max);
      if keys[|keys| - 1] in earlier.rows then RecoverOne(keys[|keys| - 1], earlier, before, now, max) else earlier
  }

  lemma RecoverKeysSnoc(keys: seq<EventKey>, key: EventKey, c: Columns, before: int, now: int, max: nat)
    requires key in c.rows
    ensures RecoverKeys(keys + [key], c, before, now, max)
         == RecoverOne(key, RecoverKeys(keys, c, before, now, max), before, now, max)
  {
    assert (keys + [key])[..|keys + [key]| - 1] == keys;
  }

  /** The order of the rows does not matter: each is recovered from what it was at the start. */
  lemma {:induction false} RecoverKeysIs(keys: seq<EventKey>, c: Columns, before: int, now: int, max: nat)
    requires forall i | 0 <= i < |keys| :: keys[i] in c.rows
    requires forall i, j | 0 <= i < j < |keys| :: keys[i] != keys[j]
    ensures Recovering((set k | k in keys), c, RecoverKeys(keys, c, before, now, max), before, now, max)
    decreases |keys|
  {
    if keys != [] {
      var earlier, key := keys[..|keys| - 1], keys[|keys| - 1];
      RecoverKeysIs(earlier, c, before, now, max);
      assert keys == earlier + [key];
      assert (set k | k in keys) == (set k | k in earlier) + {key};
      RecoveryExtends((set k | k in earlier), key, c, RecoverKeys(earlier, c, before, now, max), before, now, max);
    }
  }

  /** The whole recovery, in this order. */
  function Recovered(order: seq<EventKey>, c: Columns, before: int, now: int, max: nat): Columns {
    RecoverKeys(order, c, before, now, max)
  }

  /** No claim is ever without the time it was taken at, so no claim can escape recovery. */
  ghost predicate Timed(c: Columns) {
    forall key | key in c.rows && c.rows[key].claim.status.Processing? :: key in c.claimedAt
  }

  /** No claim was taken before the given time. */
  ghost predicate NoneOlder(c: Columns, before: int) {
    forall k | k in c.rows && c.rows[k].claim.status.Processing? :: k in c.claimedAt && c.claimedAt[k] >= before
  }

  lemma EveryRowRecovered(keys: seq<EventKey>, c: Columns, before: int, now: int, max: nat)
    requires Lists(keys, c.rows.Keys)
    requires Timed(c)
    ensures var r := Recovered(keys, c, before, now, max);
            Recovering(c.rows.Keys, c, r, before, now, max) && NoneOlder(r, before)
  {
    assert (set k | k in keys) == c.rows.Keys;
    RecoverKeysIs(keys, c, before, now, max);
  }

  class Repository {
    const tables: Tables
    const maxAttempts: nat
    const claimLeaseMs: int
    const createdAt: EventKey -> int
    var availableAt: map<EventKey, int>    // present once it differs from the creation time
    var claimedAt: map<EventKey, int>      // absent for NULL

    constructor (tables: Tables, maxAttempts: nat, claimLeaseMs: int, createdAt: EventKey -> int)
      ensures this.tables == tables && this.maxAttempts == maxAttempts && this.claimLeaseMs == claimLeaseMs
      ensures this.createdAt == createdAt && availableAt == map[] && claimedAt == map[]
    {
      this.tables, this.maxAttempts, this.claimLeaseMs := tables, maxAttempts, claimLeaseMs;
      this.createdAt, availableAt, claimedAt := createdAt, map[], map[];
    }

    ghost predicate Valid()
      reads this, tables
    {
      Timed(Cols())
    }

    function Times(): Schedule
      reads this
    {
      Schedule(createdAt, availableAt)
    }

    function Cols(): Columns
      reads this, tables
    {
      Columns(tables.outbox, Times(), claimedAt)
    }

    method FirstClaimable(now: int, locked: set<EventKey>) returns (first: Option<EventKey>)
      ensures first.None? ==> Left(tables.outbox - locked, Times(), now) == {}
      ensures first.Some? ==> IsFirst(first.value, tables.outbox - locked, Times(), now)
    {
      var s, rows := Times(), tables.outbox - locked;
      first := None;
      var rest := rows.Keys;
      while rest != {}
        invariant rest <= rows.Keys
        invariant first.None? ==> forall k | k in rows && k !in rest :: !s.Claimable(k, rows, now)
        invariant first.Some? ==>
                    && s.Claimable(first.value, rows, now)
                    && forall k | k in rows && k !in rest && s.Claimable(k, rows, now) :: !s.Before(k, first.value)
      {
        var key :| key in rest;
        rest := rest - {key};
        if s.Claimable(key, rows, now) && (first.None? || s.Before(key, first.value)) {
          first := Some(key);
        }
      }
    }

    /** Takes one row. */
    method Claim(key: EventKey, now: int) returns (ticket: Ticket)
      requires Valid() && Times().Claimable(key, tables.outbox, now)
      modifies this, tables
      ensures Valid() && availableAt == old(availableAt)
      ensures tables.State() ==
                old(tables.State()).(outbox := Moved(old(tables.outbox), RowMove(key, Acquire), maxAttempts))
      ensures ticket == Ticket(key, old(tables.outbox[key].claim.attempts) + 1)
    {
      var claim := tables.outbox[key].claim;
      var attempts := claim.attempts + 1;
      tables.UpdateClaim(key, OutboxProtocol.Claim(Processing, attempts, claim.handlers[attempts := AtStart]));
      claimedAt := claimedAt[key := now];
      ticket := Ticket(key, attempts);
    }

    /** The rows that the query selects, in its order, move to PROCESSING. */
    method Select(batchSize: nat, now: int, locked: set<EventKey>)
      returns (selected: seq<Ticket>, ghost moves: seq<RowMove>)
      requires Valid()
      modifies this, tables
      ensures Valid() && availableAt == old(availableAt)
      ensures tables.State() == old(tables.State()).(outbox := Moves(old(tables.outbox), moves, maxAttempts))
      ensures |selected| <= batchSize
      ensures |selected| < batchSize ==> Left(tables.outbox - locked, Times(), now) == {}
      ensures Fresh(selected, old(tables.outbox) - locked, Times(), now)
      ensures InOrder(selected, tables.outbox - locked, Times(), now)
      ensures AllHeld(selected, tables.outbox - locked) && Only(moves, Acquire)
      ensures TookExactly(old(tables.outbox), tables.outbox, TicketKeys(selected), maxAttempts)
      ensures forall k | k in locked && k in old(tables.outbox) ::
                k in tables.outbox && tables.outbox[k] == old(tables.outbox)[k]
    {
      selected, moves := [], [];
      ghost var db, rows, s := tables.State(), tables.outbox, Times();
      while |selected| < batchSize
        invariant Valid() && Times() == s && |selected| <= batchSize
        invariant tables.State() == db.(outbox := Moves(rows, moves, maxAttempts))
        invariant Fresh(selected, rows - locked, s, now) && InOrder(selected, tables.outbox - locked, s, now)
        invariant AllHeld(selected, tables.outbox - locked)
        invariant RestUntouched(rows - locked, tables.outbox - locked, s, now)
        invariant Only(moves, Acquire) && TookExactly(rows, tables.outbox, TicketKeys(selected), maxAttempts)
        invariant forall k | k in locked && k in rows :: k in tables.outbox && tables.outbox[k] == rows[k]
      {
        var first := FirstClaimable(now, locked);
        if first.None? {
          break;
        }
        ghost var later := tables.outbox;
        var ticket := Claim(first.value, now);
        ClaimOfUnlocked(later, locked, first.value, maxAttempts);
        ClaimableIsNew(selected, later - locked, first.value);
        TookOneMore(rows, later, selected, ticket, maxAttempts);
        ClaimExtends(rows - locked, later - locked, selected, ticket, s, now, maxAttempts);
        MovesSnoc(rows, moves, RowMove(first.value, Acquire), maxAttempts);
        selected, moves := selected + [ticket], moves + [RowMove(first.value, Acquire)];
      }
    }

    /** `claimPending`: the earliest available PENDING rows that no other transaction has locked, at most a
        batch of them, move to PROCESSING. They are returned in some order, each with the attempt number of
        this claim. */
    method ClaimPending(batchSize: nat, now: int, locked: set<EventKey>)
      returns (claimed: seq<Ticket>, ghost selected: seq<Ticket>, ghost moves: seq<RowMove>)
      requires Valid()
      modifies this, tables
      ensures Valid() && availableAt == old(availableAt)
      ensures tables.State() == old(tables.State()).(outbox := Moves(old(tables.outbox), moves, maxAttempts))
      ensures multiset(claimed) == multiset(selected) && |claimed| == |selected| <= batchSize
      ensures |selected| < batchSize ==> Left(tables.outbox - locked, Times(), now) == {}
      ensures Fresh(selected, old(tables.outbox) - locked, Times(), now)
      ensures InOrder(selected, tables.outbox - locked, Times(), now)
      ensures DistinctKeys(claimed) && AllHeld(claimed, tables.outbox) && Only(moves, Acquire)
      ensures TookExactly(old(tables.outbox), tables.outbox, TicketKeys(claimed), maxAttempts)
      ensures forall k | k in locked && k in old(tables.outbox) ::
                k in tables.outbox && tables.outbox[k] == old(tables.outbox)[k]
    {
      var inOrder;
      inOrder, moves := Select(batchSize, now, locked);
      claimed := InSomeOrder(inOrder);
      selected := inOrder;
      AllHeldInAnyOrder(selected, claimed, tables.outbox - locked);
      KeysInAnyOrder(claimed, selected);
      assert |multiset(claimed)| == |claimed| && |multiset(selected)| == |selected|;
    }

    /** `recoverExpiredClaims`, row by row in any order; by `EveryRowRecovered` exactly the claims older
        than the lease end. */
    method RecoverExpiredClaims(now: int) returns (ghost moves: seq<RowMove>, ghost order: seq<EventKey>)
      requires Valid()
      modifies this, tables
      ensures Valid()
      ensures tables.State() == old(tables.State()).(outbox := Moves(old(tables.outbox), moves, maxAttempts))
      ensures Lists(order, old(tables.outbox).Keys)
      ensures Cols() == Recovered(order, old(Cols()), now - claimLeaseMs, now, maxAttempts)
      ensures Only(moves, Expire)
    {
      ghost var db, was := tables.State(), Cols();
      var keys := Listing(tables.outbox.Keys);
      moves := [];
      for i := 0 to |keys|
        invariant Valid() && Only(moves, Expire)
        invariant tables.State() == db.(outbox := Moves(was.rows, moves, maxAttempts))
        invariant Cols() == RecoverKeys(keys[..i], was, now - claimLeaseMs, now, maxAttempts)
      {
        TakeNext(keys, i);
        RecoverKeysSnoc(keys[..i], keys[i], was, now - claimLeaseMs, now, maxAttempts);
        moves := RecoverRow(keys[i], now, was.rows, moves);
      }
      order := keys;
      assert keys[..|keys|] == keys;
    }

    /** Ends the claim of one row if its lease is over. */
    method RecoverRow(key: EventKey, now: int, ghost rows: Rows, ghost moves: seq<RowMove>)
      returns (ghost moved: seq<RowMove>)
      requires Valid() && key in tables.outbox && tables.outbox == Moves(rows, moves, maxAttempts) && Only(moves, Expire)
      modifies this, tables
      ensures Valid() && Only(moved, Expire)
      ensures tables.outbox == Moves(rows, moved, maxAttempts)
      ensures Cols() == RecoverOne(key, old(Cols()), now - claimLeaseMs, now, maxAttempts)
      ensures tables.State() == old(tables.State()).(outbox := tables.outbox)
    {
      moved := moves;
      var claim := tables.outbox[key].claim;
      if claim.status.Processing? && key in claimedAt && claimedAt[key] < now - claimLeaseMs {
        if claim.attempts >= maxAttempts {
          tables.UpdateClaim(key, claim.(status := Failed));
        } else {
          tables.UpdateClaim(key, claim.(status := Pending));
          availableAt := availableAt[key := now];
        }
        claimedAt := claimedAt - {key};
        MovesSnoc(rows, moves, RowMove(key, Expire), maxAttempts);
        moved := moves + [RowMove(key, Expire)];
      }
    }

    /** `markProcessed`, for a handler that has come through. */
    method MarkProcessed(ticket: Ticket)
      requires Valid() && ticket.key in tables.outbox
      requires ticket.attempts in tables.outbox[ticket.key].claim.handlers
      requires tables.outbox[ticket.key].claim.handlers[ticket.attempts].PastMaterialisation?
      modifies this, tables
      ensures Valid() && availableAt == old(availableAt)
      ensures tables.State() == old(tables.State()).(outbox :=
                Moved(old(tables.outbox), RowMove(ticket.key, OutboxProtocol.MarkProcessed(ticket.attempts)), maxAttempts))
    {
      var claim := tables.outbox[ticket.key].claim;
      var live := claim.handlers - {ticket.attempts};
      if claim.status.Processing? {
        tables.UpdateClaim(ticket.key, OutboxProtocol.Claim(Processed, claim.attempts, live));
        claimedAt := claimedAt - {ticket.key};
      } else {
        tables.UpdateClaim(ticket.key, claim.(handlers := live));
      }
    }

    /** `markFailed`: the attempt number is the one the handler read, not the row's present one. */
    method MarkFailed(ticket: Ticket, now: int)
      requires Valid() && ticket.key in tables.outbox
      requires ticket.attempts in tables.outbox[ticket.key].claim.handlers
      modifies this, tables
      ensures Valid()
      ensures tables.State() == old(tables.State()).(outbox :=
                Moved(old(tables.outbox), RowMove(ticket.key, OutboxProtocol.MarkFailed(ticket.attempts)), maxAttempts))
      ensures availableAt ==
                if old(tables.outbox[ticket.key]).claim.status.Processing? && ticket.attempts < maxAttempts
                then old(availableAt)[ticket.key := now + RetryDelayMs(ticket.attempts)]
                else old(availableAt)
    {
      var claim := tables.outbox[ticket.key].claim;
      var live := claim.handlers - {ticket.attempts};
      if !claim.status.Processing? {
        tables.UpdateClaim(ticket.key, claim.(handlers := live));
      } else {
        if ticket.attempts >= maxAttempts {
          tables.UpdateClaim(ticket.key, OutboxProtocol.Claim(Failed, claim.attempts, live));
        } else {
          tables.UpdateClaim(ticket.key, OutboxProtocol.Claim(Pending, claim.attempts, live));
          availableAt := availableAt[ticket.key := now + RetryDelayMs(ticket.attempts)];
        }
        claimedAt := claimedAt - {ticket.key};
      }
    }
  }
}
