/** One poll of the worker, and why it is a run of the system. */
module OutboxPolling {
  import opened Store
  import opened Database
  import opened OutboxProtocol
  import opened OutboxRepository
  import opened OutboxWorker
  import opened Verdicts
  import opened Effects
  import Records
  import Sys = System

  /** Handling an event changes no other row and takes no claim; its own handler stays live. */
  ghost predicate Leaves(rows: Rows, later: Rows, key: EventKey) {
    && (forall k | k in rows :: k in later && (k != key ==> later[k] == rows[k]))
    && (forall k | k in later :: k in rows || later[k].claim == FRESH)
    && (key in rows ==> later[key].claim.handlers.Keys == rows[key].claim.handlers.Keys
                        && later[key].claim.attempts == rows[key].claim.attempts
                        && (later[key].claim.status.Processing? ==> rows[key].claim.status.Processing?))
  }

  lemma AdvancingLeaves(db: Db, d: Db, ticket: Ticket, phase: Phase)
    requires Touches(db.outbox, d.outbox, ticket.key) && ticket.key in db.outbox
    requires ticket.attempts in db.outbox[ticket.key].claim.handlers
    ensures Leaves(db.outbox, Advanced(d, ticket, phase).outbox, ticket.key)
    ensures HasTicket(ticket, Advanced(d, ticket, phase).outbox, phase)
  {
  }

  lemma LeavingTwice(a: Rows, b: Rows, c: Rows, key: EventKey)
    requires Leaves(a, b, key) && Leaves(b, c, key) && key in a
    ensures Leaves(a, c, key)
  {
  }

  lemma ValidationLeaves(db: Db, ticket: Ticket)
    requires HasTicket(ticket, db.outbox, AtStart) && Records.IsReceived(ticket.key)
    ensures var r := ValidatedFor(db, ticket);
            r.Ok? ==> Leaves(db.outbox, r.value.outbox, ticket.key) && HasTicket(ticket, r.value.outbox, PastValidation)
  {
    if ticket.key.id in db.payments {
      ValidationKeepsTicket(db, ticket);
      var outcome := Sys.ValidationOutcome(db, ticket.key, Sys.SeenVerdict(db, ticket.key.id, StatusRead(db, ticket.key)));
      if outcome.Ok? {
        AdvancingLeaves(db, outcome.value, ticket, PastValidation);
      }
    }
  }

  lemma UnchangedTouches(db: Db, d: Db, key: EventKey)
    requires d.outbox == db.outbox
    ensures Touches(db.outbox, d.outbox, key)
  {
  }

  lemma DeliveringTouches(db: Db, key: EventKey, active: set<EndpointId>)
    requires key in db.outbox
    ensures Touches(db.outbox, Sys.Delivered(db, key, active).outbox, key)
  {
  }

  /** What a materialisation leaves before its handler is marked. */
  function DeliveredFor(db: Db, key: EventKey): Db
    requires key in db.outbox
  {
    if key.WebhookTest? then db
    else Sys.Delivered(db, key, Sys.ActiveEndpoints(db, db.outbox[key].payload.merchantId))
  }

  lemma MaterialisationIs(db: Db, ticket: Ticket)
    requires HasTicket(ticket, db.outbox, if Records.IsReceived(ticket.key) then PastValidation else AtStart)
    ensures Sys.MaterialiseTxn(db, ticket.key, ticket.attempts)
         == Ok(Advanced(DeliveredFor(db, ticket.key), ticket, PastMaterialisation))
  {
  }

  lemma MaterialisationLeaves(db: Db, ticket: Ticket)
    requires HasTicket(ticket, db.outbox, if Records.IsReceived(ticket.key) then PastValidation else AtStart)
    ensures var r := Sys.MaterialiseTxn(db, ticket.key, ticket.attempts);
            r.Ok? && Leaves(db.outbox, r.value.outbox, ticket.key) && HasTicket(ticket, r.value.outbox, PastMaterialisation)
  {
    MaterialisationIs(db, ticket);
    if ticket.key.WebhookTest? {
      UnchangedTouches(db, db, ticket.key);
    } else {
      DeliveringTouches(db, ticket.key, Sys.ActiveEndpoints(db, db.outbox[ticket.key].payload.merchantId));
    }
    AdvancingLeaves(db, DeliveredFor(db, ticket.key), ticket, PastMaterialisation);
  }

  lemma HandlingLeaves(db: Db, ticket: Ticket)
    requires HasTicket(ticket, db.outbox, AtStart)
    ensures var d := HandledState(db, ticket);
            && Leaves(db.outbox, d.outbox, ticket.key)
            && (Handled(db, ticket).Ok? ==> HasTicket(ticket, d.outbox, PastMaterialisation))
  {
    if Records.IsReceived(ticket.key) {
      ValidationLeaves(db, ticket);
    }
    var validated := ValidatedFor(db, ticket);
    if validated.Ok? {
      MaterialisationLeaves(validated.value, ticket);
      LeavingTwice(db.outbox, validated.value.outbox, HandledState(db, ticket).outbox, ticket.key);
    }
  }

  // ---------- One event ----------

  function Marked(db: Db, move: RowMove, maxAttempts: nat): Db {
    db.(outbox := Moved(db.outbox, move, maxAttempts))
  }

  /** `processClaimedEvent`. */
  ghost function ProcessedState(db: Db, ticket: Ticket, maxAttempts: nat): Db {
    Marked(HandledState(db, ticket),
           RowMove(ticket.key, if Handled(db, ticket).Ok? then MarkProcessed(ticket.attempts)
                               else MarkFailed(ticket.attempts)), maxAttempts)
  }

  /** The handlers that are still to run. */
  ghost predicate Waiting(claimed: seq<Ticket>, from: nat, rows: Rows) {
    forall i | from <= i < |claimed| :: HasTicket(claimed[i], rows, AtStart)
  }

  lemma ProcessingLeavesOthers(db: Db, claimed: seq<Ticket>, i: nat, maxAttempts: nat)
    requires i < |claimed| && DistinctKeys(claimed) && Waiting(claimed, i, db.outbox)
    ensures Waiting(claimed, i + 1, ProcessedState(db, claimed[i], maxAttempts).outbox)
  {
    HandlingLeaves(db, claimed[i]);
    forall j | i < j < |claimed|
      ensures HasTicket(claimed[j], ProcessedState(db, claimed[i], maxAttempts).outbox, AtStart)
    {
      assert HasTicket(claimed[j], db.outbox, AtStart);
    }
  }

  // ---------- Runs of the system ----------

  lemma NextIsMarked(db: Db, ticket: Ticket, ok: bool, maxAttempts: nat)
    requires ticket.key in db.outbox
    ensures Sys.Next(db, if ok then Sys.MarkRowProcessed(ticket.key, ticket.attempts)
                         else Sys.MarkRowFailed(ticket.key, ticket.attempts), maxAttempts)
         == Marked(db, RowMove(ticket.key, if ok then MarkProcessed(ticket.attempts) else MarkFailed(ticket.attempts)),
                   maxAttempts)
  {
  }

  lemma ClaimIsReachable(db: Db, move: RowMove, maxAttempts: nat)
    requires Sys.Reachable(db, maxAttempts) && (move.step.Acquire? || move.step.Expire?)
    ensures Sys.Reachable(Marked(db, move, maxAttempts), maxAttempts)
  {
    if move.key in db.outbox {
      Sys.StepIsReachable(db, if move.step.Acquire? then Sys.ClaimRow(move.key) else Sys.ExpireLease(move.key), maxAttempts);
    } else {
      assert Marked(db, move, maxAttempts) == db;
    }
  }

  lemma {:induction false} ClaimsAreReachable(db: Db, moves: seq<RowMove>, step: RowStep, maxAttempts: nat)
    requires Sys.Reachable(db, maxAttempts) && (step.Acquire? || step.Expire?) && Only(moves, step)
    ensures Sys.Reachable(db.(outbox := Moves(db.outbox, moves, maxAttempts)), maxAttempts)
    decreases |moves|
  {
    if moves == [] {
      assert db.(outbox := Moves(db.outbox, moves, maxAttempts)) == db;
    } else {
      var earlier := moves[..|moves| - 1];
      ClaimsAreReachable(db, earlier, step, maxAttempts);
      ClaimIsReachable(db.(outbox := Moves(db.outbox, earlier, maxAttempts)), moves[|moves| - 1], maxAttempts);
    }
  }

  lemma NextIsValidated(db: Db, key: EventKey, t: nat, seen: MerchantStatus, maxAttempts: nat)
    ensures Sys.Next(db, Sys.ValidateReceived(key, t, seen), maxAttempts)
         == Commit(db, Sys.ValidateTxn(db, key, t, seen))
  {
  }

  lemma ValidationIsReachable(db: Db, ticket: Ticket, maxAttempts: nat)
    requires Sys.Reachable(db, maxAttempts)
    ensures Sys.Reachable(Commit(db, ValidatedFor(db, ticket)), maxAttempts)
  {
    if Records.IsReceived(ticket.key) {
      var seen := StatusRead(db, ticket.key);
      NextIsValidated(db, ticket.key, ticket.attempts, seen, maxAttempts);
      Sys.StepIsReachable(db, Sys.ValidateReceived(ticket.key, ticket.attempts, seen), maxAttempts);
    }
  }

  lemma MaterialisationIsReachable(db: Db, ticket: Ticket, maxAttempts: nat)
    requires Sys.Reachable(db, maxAttempts)
    ensures Sys.Reachable(Commit(db, Sys.MaterialiseTxn(db, ticket.key, ticket.attempts)), maxAttempts)
  {
    Sys.StepIsReachable(db, Sys.MaterialiseWebhooks(ticket.key, ticket.attempts), maxAttempts);
  }

  lemma HandlingIsReachable(db: Db, ticket: Ticket, maxAttempts: nat)
    requires Sys.Reachable(db, maxAttempts)
    ensures Sys.Reachable(HandledState(db, ticket), maxAttempts)
  {
    var validated := ValidatedFor(db, ticket);
    if validated.Ok? {
      ValidationIsReachable(db, ticket, maxAttempts);
      MaterialisationIsReachable(validated.value, ticket, maxAttempts);
    }
  }

  /** What the worker does with one claimed event is a run of the system. */
  lemma ProcessingIsReachable(db: Db, ticket: Ticket, maxAttempts: nat)
    requires Sys.Reachable(db, maxAttempts) && HasTicket(ticket, db.outbox, AtStart)
    ensures Sys.Reachable(ProcessedState(db, ticket, maxAttempts), maxAttempts)
  {
    var d, ok := HandledState(db, ticket), Handled(db, ticket).Ok?;
    HandlingIsReachable(db, ticket, maxAttempts);
    HandlingLeaves(db, ticket);
    NextIsMarked(d, ticket, ok, maxAttempts);
    Sys.StepIsReachable(d, if ok then Sys.MarkRowProcessed(ticket.key, ticket.attempts)
                           else Sys.MarkRowFailed(ticket.key, ticket.attempts), maxAttempts);
  }

  /** The claimed events one after the other. */
  ghost function BatchState(db: Db, claimed: seq<Ticket>, maxAttempts: nat): Db {
    if claimed == [] then db
    else ProcessedState(BatchState(db, claimed[..|claimed| - 1], maxAttempts), claimed[|claimed| - 1], maxAttempts)
  }

  lemma BatchSnoc(db: Db, claimed: seq<Ticket>, i: nat, maxAttempts: nat)
    requires i < |claimed|
    ensures BatchState(db, claimed[..i + 1], maxAttempts)
         == ProcessedState(BatchState(db, claimed[..i], maxAttempts), claimed[i], maxAttempts)
  {
    assert claimed[..i + 1][..i] == claimed[..i];
  }

  lemma NextIsReachable(db: Db, claimed: seq<Ticket>, i: nat, maxAttempts: nat)
    requires i < |claimed| && Sys.Reachable(BatchState(db, claimed[..i], maxAttempts), maxAttempts)
    requires HasTicket(claimed[i], BatchState(db, claimed[..i], maxAttempts).outbox, AtStart)
    ensures Sys.Reachable(BatchState(db, claimed[..i + 1], maxAttempts), maxAttempts)
  {
    BatchSnoc(db, claimed, i, maxAttempts);
    ProcessingIsReachable(BatchState(db, claimed[..i], maxAttempts), claimed[i], maxAttempts);
  }

  lemma NextIsWaiting(db: Db, claimed: seq<Ticket>, i: nat, maxAttempts: nat)
    requires i < |claimed| && DistinctKeys(claimed) && Waiting(claimed, 0, db.outbox)
    ensures HasTicket(claimed[i], BatchState(db, claimed[..i], maxAttempts).outbox, AtStart)
  {
    BatchReports(db, claimed, i, maxAttempts);
  }

  lemma {:induction false} BatchIsReachable(db: Db, claimed: seq<Ticket>, i: nat, maxAttempts: nat)
    requires i <= |claimed| && DistinctKeys(claimed) && Waiting(claimed, 0, db.outbox)
    requires Sys.Reachable(db, maxAttempts)
    ensures Sys.Reachable(BatchState(db, claimed[..i], maxAttempts), maxAttempts)
    decreases i
  {
    if i > 0 {
      BatchIsReachable(db, claimed, i - 1, maxAttempts);
      NextIsWaiting(db, claimed, i - 1, maxAttempts);
      NextIsReachable(db, claimed, i - 1, maxAttempts);
    }
  }

  ghost function PollState(db: Db, recovered: seq<RowMove>, taken: seq<RowMove>, claimed: seq<Ticket>,
                           maxAttempts: nat): Db
  {
    BatchState(db.(outbox := Moves(Moves(db.outbox, recovered, maxAttempts), taken, maxAttempts)), claimed, maxAttempts)
  }

  /** A whole poll is a run of the system. */
  lemma PollIsReachable(db: Db, recovered: seq<RowMove>, taken: seq<RowMove>, claimed: seq<Ticket>, maxAttempts: nat)
    requires Sys.Reachable(db, maxAttempts)
    requires Only(recovered, Expire) && Only(taken, Acquire) && DistinctKeys(claimed)
    requires Waiting(claimed, 0, Moves(Moves(db.outbox, recovered, maxAttempts), taken, maxAttempts))
    ensures Sys.Reachable(PollState(db, recovered, taken, claimed, maxAttempts), maxAttempts)
  {
    var d := db.(outbox := Moves(db.outbox, recovered, maxAttempts));
    ClaimsAreReachable(db, recovered, Expire, maxAttempts);
    ClaimsAreReachable(d, taken, Acquire, maxAttempts);
    BatchIsReachable(d.(outbox := Moves(d.outbox, taken, maxAttempts)), claimed, |claimed|, maxAttempts);
    assert claimed[..|claimed|] == claimed;
  }

  // ---------- What a batch does to the rows ----------

  /** The handler with this number has reported: it is gone, and so is the claim. */
  predicate Reported(row: OutboxRow, later: OutboxRow, t: nat) {
    later.claim.attempts == row.claim.attempts && t !in later.claim.handlers && !later.claim.status.Processing?
  }

  ghost predicate OthersStay(rows: Rows, later: Rows, keys: set<EventKey>) {
    forall k | k in rows :: k in later && (k !in keys ==> later[k] == rows[k])
  }

  lemma ProcessingReports(db: Db, ticket: Ticket, maxAttempts: nat)
    requires HasTicket(ticket, db.outbox, AtStart)
    ensures var d := ProcessedState(db, ticket, maxAttempts);
            && OthersStay(db.outbox, d.outbox, {ticket.key})
            && Reported(db.outbox[ticket.key], d.outbox[ticket.key], ticket.attempts)
  {
    HandlingLeaves(db, ticket);
    MarkingReports(HandledState(db, ticket), ticket, Handled(db, ticket).Ok?, maxAttempts);
  }

  lemma MarkingReports(db: Db, ticket: Ticket, ok: bool, maxAttempts: nat)
    requires ticket.key in db.outbox && ticket.attempts in db.outbox[ticket.key].claim.handlers
    requires ok ==> db.outbox[ticket.key].claim.handlers[ticket.attempts].PastMaterialisation?
    ensures var move := RowMove(ticket.key, if ok then MarkProcessed(ticket.attempts) else MarkFailed(ticket.attempts));
            var d := Marked(db, move, maxAttempts);
            && OthersStay(db.outbox, d.outbox, {ticket.key})
            && Reported(db.outbox[ticket.key], d.outbox[ticket.key], ticket.attempts)
  {
  }

  /** Every claimed event was reported on, and no other row was rewritten. */
  ghost predicate BatchDid(rows: Rows, later: Rows, claimed: seq<Ticket>) {
    && OthersStay(rows, later, TicketKeys(claimed))
    && forall i | 0 <= i < |claimed| ::
         claimed[i].key in rows && claimed[i].key in later
         && Reported(rows[claimed[i].key], later[claimed[i].key], claimed[i].attempts)
  }

  lemma OneMoreReported(rows: Rows, later: Rows, last: Rows, claimed: seq<Ticket>, i: nat)
    requires i < |claimed| && DistinctKeys(claimed) && BatchDid(rows, later, claimed[..i])
    requires claimed[i].key in rows && OthersStay(later, last, {claimed[i].key})
    requires Reported(later[claimed[i].key], last[claimed[i].key], claimed[i].attempts)
    ensures BatchDid(rows, last, claimed[..i + 1])
  {
    assert claimed[..i + 1] == claimed[..i] + [claimed[i]];
    KeysOfMore(claimed[..i], claimed[i]);
    assert claimed[i].key !in TicketKeys(claimed[..i]) by {
      forall t | t in claimed[..i] ensures t.key != claimed[i].key {
        var j :| 0 <= j < i && claimed[j] == t;
      }
    }
    forall j | 0 <= j < i + 1
      ensures claimed[..i + 1][j].key in rows && claimed[..i + 1][j].key in last
      ensures Reported(rows[claimed[j].key], last[claimed[j].key], claimed[j].attempts)
    {
      if j < i {
        assert claimed[..i][j] == claimed[j];
      }
    }
  }

  lemma {:induction false} BatchReports(db: Db, claimed: seq<Ticket>, i: nat, maxAttempts: nat)
    requires i <= |claimed| && DistinctKeys(claimed) && Waiting(claimed, 0, db.outbox)
    ensures var d := BatchState(db, claimed[..i], maxAttempts);
            BatchDid(db.outbox, d.outbox, claimed[..i]) && Waiting(claimed, i, d.outbox)
    decreases i
  {
    if i > 0 {
      var before := BatchState(db, claimed[..i - 1], maxAttempts);
      BatchReports(db, claimed, i - 1, maxAttempts);
      BatchSnoc(db, claimed, i - 1, maxAttempts);
      assert HasTicket(claimed[i - 1], before.outbox, AtStart) && HasTicket(claimed[i - 1], db.outbox, AtStart);
      ProcessingReports(before, claimed[i - 1], maxAttempts);
      ProcessingLeavesOthers(before, claimed, i - 1, maxAttempts);
      OneMoreReported(db.outbox, before.outbox, ProcessedState(before, claimed[i - 1], maxAttempts).outbox, claimed, i - 1);
    }
  }

  // ---------- What a poll does, by the tables and the clock ----------

  /** The time from which a row may be claimed. */
  function AvailableFrom(was: Columns, key: EventKey): int {
    if key in was.s.availableAt then was.s.availableAt[key] else was.s.createdAt(key)
  }

  /** The row is claimed, and has been for longer than the lease. */
  predicate LeaseOver(was: Columns, key: EventKey, now: int, leaseMs: int) {
    && key in was.rows && was.rows[key].claim.status.Processing?
    && key in was.claimedAt && was.claimedAt[key] < now - leaseMs
  }

  /** The poll may claim the row: it is PENDING and available, or its lease is over and it has attempts left. */
  predicate IsDue(was: Columns, key: EventKey, now: int, leaseMs: int, maxAttempts: nat) {
    && key in was.rows
    && (|| (was.rows[key].claim.status.Pending? && AvailableFrom(was, key) <= now)
        || (LeaseOver(was, key, now, leaseMs) && was.rows[key].claim.attempts < maxAttempts))
  }

  function DueSince(was: Columns, key: EventKey, now: int, leaseMs: int): int {
    if LeaseOver(was, key, now, leaseMs) then now else AvailableFrom(was, key)
  }

  /** Earlier in the queue: due earlier, or due at the same time and created earlier. */
  predicate Ahead(was: Columns, k: EventKey, l: EventKey, now: int, leaseMs: int) {
    || DueSince(was, k, now, leaseMs) < DueSince(was, l, now, leaseMs)
    || (DueSince(was, k, now, leaseMs) == DueSince(was, l, now, leaseMs) && was.s.createdAt(k) < was.s.createdAt(l))
  }

  /** Which rows the poll took: due ones that nobody has locked, as many as fit, the first of the queue. */
  ghost predicate TookFirst(was: Columns, keys: set<EventKey>, n: nat, locked: set<EventKey>, batchSize: nat, now: int,
                            leaseMs: int, maxAttempts: nat)
  {
    && n <= batchSize
    && (forall k | k in keys :: IsDue(was, k, now, leaseMs, maxAttempts) && k !in locked)
    && (n == batchSize || forall k | IsDue(was, k, now, leaseMs, maxAttempts) && k !in locked :: k in keys)
    && (forall k, l | k in keys && IsDue(was, l, now, leaseMs, maxAttempts) && l !in locked && l !in keys ::
          !Ahead(was, l, k, now, leaseMs))
  }

  /** A taken row has one more attempt, the handler that read it has reported, and nobody holds its claim. */
  ghost predicate TakenAndReported(row: OutboxRow, later: OutboxRow, t: nat) {
    && t == row.claim.attempts + 1 == later.claim.attempts
    && t !in later.claim.handlers && !later.claim.status.Processing?
  }

  /** A row that was not taken changes only if its lease was over: then its claim has ended, for good after the last
      attempt. */
  ghost predicate OnlyRecovered(was: Columns, later: Rows, key: EventKey, now: int, leaseMs: int, maxAttempts: nat)
    requires key in was.rows
  {
    var row := was.rows[key];
    && key in later
    && later[key] == if !LeaseOver(was, key, now, leaseMs) then row
                     else row.(claim := row.claim.(status :=
                                 if row.claim.attempts >= maxAttempts then Failed else Pending))
  }

  ghost predicate AllTaken(was: Columns, later: Rows, claimed: seq<Ticket>) {
    forall i | 0 <= i < |claimed| ::
      claimed[i].key in was.rows && claimed[i].key in later
      && TakenAndReported(was.rows[claimed[i].key], later[claimed[i].key], claimed[i].attempts)
  }

  ghost predicate OthersRecovered(was: Columns, later: Rows, claimed: seq<Ticket>, now: int, leaseMs: int,
                                  maxAttempts: nat)
  {
    forall k | k in was.rows && k !in TicketKeys(claimed) :: OnlyRecovered(was, later, k, now, leaseMs, maxAttempts)
  }

  /** All of it: the due rows that come first are taken and reported on, the others only recovered, and no claim is
      left whose lease was over. */
  ghost predicate PollDid(was: Columns, later: Rows, claimed: seq<Ticket>, locked: set<EventKey>, batchSize: nat,
                          now: int, leaseMs: int, maxAttempts: nat)
  {
    && DistinctKeys(claimed)
    && TookFirst(was, TicketKeys(claimed), |claimed|, locked, batchSize, now, leaseMs, maxAttempts)
    && AllTaken(was, later, claimed) && OthersRecovered(was, later, claimed, now, leaseMs, maxAttempts)
    && (forall k | LeaseOver(was, k, now, leaseMs) :: k in later && !later[k].claim.status.Processing?)
  }

  lemma RecoveredIsDue(was: Columns, r: Columns, key: EventKey, now: int, leaseMs: int, maxAttempts: nat)
    requires Recovering(was.rows.Keys, was, r, now - leaseMs, now, maxAttempts)
    ensures r.s.Claimable(key, r.rows, now) <==> IsDue(was, key, now, leaseMs, maxAttempts)
    ensures r.s.createdAt == was.s.createdAt
    ensures IsDue(was, key, now, leaseMs, maxAttempts) ==> r.s.At(key) == DueSince(was, key, now, leaseMs)
  {
    assert LeaseOver(was, key, now, leaseMs) <==> Expired(key, was.rows, was.claimedAt, now - leaseMs);
  }

  lemma TakenWereDue(was: Columns, r: Columns, selected: seq<Ticket>, locked: set<EventKey>, now: int, leaseMs: int,
                     maxAttempts: nat)
    requires Recovering(was.rows.Keys, was, r, now - leaseMs, now, maxAttempts)
    requires Fresh(selected, r.rows - locked, r.s, now)
    ensures forall k | k in TicketKeys(selected) :: IsDue(was, k, now, leaseMs, maxAttempts) && k !in locked
  {
    forall k | k in TicketKeys(selected) ensures IsDue(was, k, now, leaseMs, maxAttempts) && k !in locked {
      var t :| t in selected && t.key == k;
      var i :| 0 <= i < |selected| && selected[i] == t;
      assert r.s.Claimable(selected[i].key, r.rows - locked, now);
      RecoveredIsDue(was, r, k, now, leaseMs, maxAttempts);
    }
  }

  lemma LeftIsClaimable(was: Columns, r: Columns, c: Rows, claimed: seq<Ticket>, locked: set<EventKey>, k: EventKey,
                        now: int, leaseMs: int, maxAttempts: nat)
    requires Recovering(was.rows.Keys, was, r, now - leaseMs, now, maxAttempts)
    requires TookExactly(r.rows, c, TicketKeys(claimed), maxAttempts)
    requires IsDue(was, k, now, leaseMs, maxAttempts) && k !in locked && k !in TicketKeys(claimed)
    ensures r.s.Claimable(k, c - locked, now)
  {
    RecoveredIsDue(was, r, k, now, leaseMs, maxAttempts);
  }

  lemma AheadIsBefore(was: Columns, r: Columns, k: EventKey, l: EventKey, now: int, leaseMs: int, maxAttempts: nat)
    requires Recovering(was.rows.Keys, was, r, now - leaseMs, now, maxAttempts)
    requires IsDue(was, k, now, leaseMs, maxAttempts) && IsDue(was, l, now, leaseMs, maxAttempts)
    ensures r.s.Before(k, l) <==> Ahead(was, k, l, now, leaseMs)
  {
    RecoveredIsDue(was, r, k, now, leaseMs, maxAttempts);
    RecoveredIsDue(was, r, l, now, leaseMs, maxAttempts);
  }

  lemma SelectionTookFirst(was: Columns, r: Columns, c: Rows, selected: seq<Ticket>, locked: set<EventKey>,
                           batchSize: nat, now: int, leaseMs: int, maxAttempts: nat)
    requires Recovering(was.rows.Keys, was, r, now - leaseMs, now, maxAttempts)
    requires Fresh(selected, r.rows - locked, r.s, now) && InOrder(selected, c - locked, r.s, now)
    requires |selected| <= batchSize && TookExactly(r.rows, c, TicketKeys(selected), maxAttempts)
    requires |selected| < batchSize ==> Left(c - locked, r.s, now) == {}
    ensures TookFirst(was, TicketKeys(selected), |selected|, locked, batchSize, now, leaseMs, maxAttempts)
  {
    var keys := TicketKeys(selected);
    TakenWereDue(was, r, selected, locked, now, leaseMs, maxAttempts);
    forall l | IsDue(was, l, now, leaseMs, maxAttempts) && l !in locked && l !in keys
      ensures |selected| == batchSize
      ensures forall k | k in keys :: !Ahead(was, l, k, now, leaseMs)
    {
      LeftIsClaimable(was, r, c, selected, locked, l, now, leaseMs, maxAttempts);
      assert l in Left(c - locked, r.s, now);
      forall k | k in keys ensures !Ahead(was, l, k, now, leaseMs) {
        var t :| t in selected && t.key == k;
        var i :| 0 <= i < |selected| && selected[i] == t;
        assert !r.s.Before(l, selected[i].key);
        AheadIsBefore(was, r, l, k, now, leaseMs, maxAttempts);
      }
    }
  }

  lemma TicketWasTaken(was: Columns, r: Columns, c: Rows, f: Rows, selected: seq<Ticket>, claimed: seq<Ticket>, i: nat,
                       locked: set<EventKey>, now: int, leaseMs: int, maxAttempts: nat)
    requires Recovering(was.rows.Keys, was, r, now - leaseMs, now, maxAttempts)
    requires Fresh(selected, r.rows - locked, r.s, now) && TookExactly(r.rows, c, TicketKeys(claimed), maxAttempts)
    requires BatchDid(c, f, claimed) && i < |claimed| && claimed[i] in selected
    ensures claimed[i].key in was.rows && claimed[i].key in f
    ensures TakenAndReported(was.rows[claimed[i].key], f[claimed[i].key], claimed[i].attempts)
  {
    var k := claimed[i].key;
    var j :| 0 <= j < |selected| && selected[j] == claimed[i];
    assert r.s.Claimable(selected[j].key, r.rows - locked, now);
    assert k in TicketKeys(claimed);
    assert r.rows[k].claim.attempts == was.rows[k].claim.attempts;
    assert Reported(c[k], f[k], claimed[i].attempts);
  }

  lemma UntakenIsRecovered(was: Columns, r: Columns, c: Rows, f: Rows, claimed: seq<Ticket>, k: EventKey, now: int,
                           leaseMs: int, maxAttempts: nat)
    requires Recovering(was.rows.Keys, was, r, now - leaseMs, now, maxAttempts)
    requires TookExactly(r.rows, c, TicketKeys(claimed), maxAttempts) && BatchDid(c, f, claimed)
    requires k in was.rows && k !in TicketKeys(claimed)
    ensures OnlyRecovered(was, f, k, now, leaseMs, maxAttempts)
  {
    assert LeaseOver(was, k, now, leaseMs) <==> Expired(k, was.rows, was.claimedAt, now - leaseMs);
    assert r.rows.Keys == was.rows.Keys && k in c && f[k] == c[k] == r.rows[k];
  }

  /** The rows `was` became `r` by recovery and `c` by the claims of a batch. */
  ghost predicate TookBatch(was: Columns, order: seq<EventKey>, r: Columns, c: Rows, selected: seq<Ticket>,
                            claimed: seq<Ticket>, locked: set<EventKey>, batchSize: nat, now: int, leaseMs: int,
                            maxAttempts: nat)
  {
    && Lists(order, was.rows.Keys) && Timed(was) && r == Recovered(order, was, now - leaseMs, now, maxAttempts)
    && Fresh(selected, r.rows - locked, r.s, now) && InOrder(selected, c - locked, r.s, now)
    && (|selected| < batchSize ==> Left(c - locked, r.s, now) == {})
    && multiset(claimed) == multiset(selected) && |claimed| == |selected| <= batchSize && DistinctKeys(claimed)
    && TookExactly(r.rows, c, TicketKeys(claimed), maxAttempts)
  }

  lemma RecoveredTo(order: seq<EventKey>, was: Columns, r: Columns, before: int, now: int, maxAttempts: nat)
    requires Lists(order, was.rows.Keys) && Timed(was) && r == Recovered(order, was, before, now, maxAttempts)
    ensures Recovering(was.rows.Keys, was, r, before, now, maxAttempts)
  {
    EveryRowRecovered(order, was, before, now, maxAttempts);
  }

  lemma TicketsWereTaken(was: Columns, r: Columns, c: Rows, f: Rows, selected: seq<Ticket>, claimed: seq<Ticket>,
                         locked: set<EventKey>, now: int, leaseMs: int, maxAttempts: nat)
    requires Recovering(was.rows.Keys, was, r, now - leaseMs, now, maxAttempts)
    requires Fresh(selected, r.rows - locked, r.s, now) && TookExactly(r.rows, c, TicketKeys(claimed), maxAttempts)
    requires BatchDid(c, f, claimed) && forall t :: t in claimed <==> t in selected
    ensures AllTaken(was, f, claimed)
  {
    forall i | 0 <= i < |claimed|
      ensures claimed[i].key in was.rows && claimed[i].key in f
      ensures TakenAndReported(was.rows[claimed[i].key], f[claimed[i].key], claimed[i].attempts)
    {
      assert claimed[i] in claimed;
      TicketWasTaken(was, r, c, f, selected, claimed, i, locked, now, leaseMs, maxAttempts);
    }
  }

  lemma NoClaimIsLeft(was: Columns, f: Rows, claimed: seq<Ticket>, now: int, leaseMs: int, maxAttempts: nat)
    requires AllTaken(was, f, claimed) && OthersRecovered(was, f, claimed, now, leaseMs, maxAttempts)
    ensures forall k | LeaseOver(was, k, now, leaseMs) :: k in f && !f[k].claim.status.Processing?
  {
    forall k | LeaseOver(was, k, now, leaseMs) ensures k in f && !f[k].claim.status.Processing? {
      if k in TicketKeys(claimed) {
        var t :| t in claimed && t.key == k;
        var i :| 0 <= i < |claimed| && claimed[i] == t;
        assert TakenAndReported(was.rows[claimed[i].key], f[claimed[i].key], claimed[i].attempts);
      } else {
        assert OnlyRecovered(was, f, k, now, leaseMs, maxAttempts);
      }
    }
  }

  lemma OthersWereRecovered(was: Columns, r: Columns, c: Rows, f: Rows, claimed: seq<Ticket>, now: int, leaseMs: int,
                            maxAttempts: nat)
    requires Recovering(was.rows.Keys, was, r, now - leaseMs, now, maxAttempts)
    requires TookExactly(r.rows, c, TicketKeys(claimed), maxAttempts) && BatchDid(c, f, claimed)
    ensures OthersRecovered(was, f, claimed, now, leaseMs, maxAttempts)
  {
    forall k | k in was.rows && k !in TicketKeys(claimed) ensures OnlyRecovered(was, f, k, now, leaseMs, maxAttempts) {
      UntakenIsRecovered(was, r, c, f, claimed, k, now, leaseMs, maxAttempts);
    }
  }

  lemma PollTookFirst(was: Columns, order: seq<EventKey>, r: Columns, c: Rows, selected: seq<Ticket>,
                      claimed: seq<Ticket>, locked: set<EventKey>, batchSize: nat, now: int, leaseMs: int,
                      maxAttempts: nat)
    requires TookBatch(was, order, r, c, selected, claimed, locked, batchSize, now, leaseMs, maxAttempts)
    ensures TookFirst(was, TicketKeys(claimed), |claimed|, locked, batchSize, now, leaseMs, maxAttempts)
  {
    RecoveredTo(order, was, r, now - leaseMs, now, maxAttempts);
    KeysInAnyOrder(claimed, selected);
    SelectionTookFirst(was, r, c, selected, locked, batchSize, now, leaseMs, maxAttempts);
  }

  lemma PollReported(was: Columns, order: seq<EventKey>, r: Columns, c: Rows, f: Rows, selected: seq<Ticket>,
                     claimed: seq<Ticket>, locked: set<EventKey>, batchSize: nat, now: int, leaseMs: int,
                     maxAttempts: nat)
    requires TookBatch(was, order, r, c, selected, claimed, locked, batchSize, now, leaseMs, maxAttempts)
    requires BatchDid(c, f, claimed)
    ensures AllTaken(was, f, claimed) && OthersRecovered(was, f, claimed, now, leaseMs, maxAttempts)
  {
    RecoveredTo(order, was, r, now - leaseMs, now, maxAttempts);
    KeysInAnyOrder(claimed, selected);
    TicketsWereTaken(was, r, c, f, selected, claimed, locked, now, leaseMs, maxAttempts);
    OthersWereRecovered(was, r, c, f, claimed, now, leaseMs, maxAttempts);
  }

  /** Recovery, claims and reports together do what is said of a poll. */
  lemma PollDoes(was: Columns, order: seq<EventKey>, r: Columns, c: Rows, f: Rows, selected: seq<Ticket>,
                 claimed: seq<Ticket>, locked: set<EventKey>, batchSize: nat, now: int, leaseMs: int, maxAttempts: nat)
    requires TookBatch(was, order, r, c, selected, claimed, locked, batchSize, now, leaseMs, maxAttempts)
    requires BatchDid(c, f, claimed)
    ensures PollDid(was, f, claimed, locked, batchSize, now, leaseMs, maxAttempts)
  {
    PollTookFirst(was, order, r, c, selected, claimed, locked, batchSize, now, leaseMs, maxAttempts);
    PollReported(was, order, r, c, f, selected, claimed, locked, batchSize, now, leaseMs, maxAttempts);
    NoClaimIsLeft(was, f, claimed, now, leaseMs, maxAttempts);
  }

  // ---------- The verdict ----------

  /** The event is of a RECEIVED payment of a known merchant, and its verdict can be written. */
  ghost predicate Decidable(db: Db, ticket: Ticket) {
    Mirrored(db) && AwaitsVerdict(db, ticket) && CanDecide(db, ticket.key)
  }

  lemma MarkingKeepsVerdict(db: Db, move: RowMove, maxAttempts: nat)
    ensures KeepsVerdict(db, Marked(db, move, maxAttempts))
  {
  }

  lemma ProcessingHasVerdict(db: Db, ticket: Ticket, maxAttempts: nat)
    requires Decidable(db, ticket)
    ensures HasVerdict(db, ProcessedState(db, ticket, maxAttempts), ticket.key.id)
  {
    var d := HandledState(db, ticket);
    var move := RowMove(ticket.key, if Handled(db, ticket).Ok? then MarkProcessed(ticket.attempts)
                                    else MarkFailed(ticket.attempts));
    HandlingHasVerdict(db, ticket);
    MarkingKeepsVerdict(d, move, maxAttempts);
    VerdictStays(db, d, Marked(d, move, maxAttempts), ticket.key.id);
  }

  class OutboxPollingService {
    const repository: Repository
    const handler: OutboxHandler
    const batchSize: nat

    constructor (repository: Repository, handler: OutboxHandler, batchSize: nat)
      ensures this.repository == repository && this.handler == handler && this.batchSize == batchSize
    {
      this.repository, this.handler, this.batchSize := repository, handler, batchSize;
    }

    /** Both services work on the same database. */
    predicate Wired() {
      repository.tables == handler.materializer.tables == handler.validation.payments.tables
    }

    /** `processClaimedEvent`: on consistent tables a RECEIVED payment gets the verdict that the rules give it, by its
        merchant's status at this moment. */
    method ProcessClaimedEvent(ticket: Ticket, now: int)
      requires Wired() && repository.Valid() && HasTicket(ticket, repository.tables.outbox, AtStart)
      modifies repository, repository.tables
      ensures repository.Valid()
      ensures repository.tables.State() ==
                ProcessedState(old(repository.tables.State()), ticket, repository.maxAttempts)
      ensures Decidable(old(repository.tables.State()), ticket) ==>
                HasVerdict(old(repository.tables.State()), repository.tables.State(), ticket.key.id)
    {
      ghost var db := repository.tables.State();
      HandleAndMark(ticket, now);
      if Decidable(db, ticket) {
        ProcessingHasVerdict(db, ticket, repository.maxAttempts);
      }
    }

    method HandleAndMark(ticket: Ticket, now: int)
      requires Wired() && repository.Valid() && HasTicket(ticket, repository.tables.outbox, AtStart)
      modifies repository, repository.tables
      ensures repository.Valid()
      ensures repository.tables.State() ==
                ProcessedState(old(repository.tables.State()), ticket, repository.maxAttempts)
    {
      ghost var db := repository.tables.State();
      var r := handler.Handle(ticket);
      HandlingLeaves(db, ticket);
      if r.Ok? {
        repository.MarkProcessed(ticket);
      } else {
        repository.MarkFailed(ticket, now);
      }
    }

    /** `processOnce`: recover leases, claim a batch, handle every claimed event. Whatever rows other
        transactions have locked and whatever the handlers do, the database stays in a state that the
        system can reach. */
    method ProcessOnce(now: int, locked: set<EventKey>)
      returns (claimed: seq<Ticket>, ghost recovered: seq<RowMove>, ghost taken: seq<RowMove>)
      requires Wired() && repository.Valid()
      modifies repository, repository.tables
      ensures repository.Valid()
      ensures PollDid(old(repository.Cols()), repository.tables.outbox, claimed, locked, batchSize, now,
                      repository.claimLeaseMs, repository.maxAttempts)
      ensures Only(recovered, Expire) && Only(taken, Acquire)
      ensures repository.tables.State() ==
                PollState(old(repository.tables.State()), recovered, taken, claimed, repository.maxAttempts)
      ensures Sys.Reachable(old(repository.tables.State()), repository.maxAttempts) ==>
                Sys.Reachable(repository.tables.State(), repository.maxAttempts)
    {
      ghost var db, max := repository.tables.State(), repository.maxAttempts;
      claimed, recovered, taken := Poll(now, locked);
      if Sys.Reachable(db, max) {
        PollIsReachable(db, recovered, taken, claimed, max);
      }
    }

    method Poll(now: int, locked: set<EventKey>)
      returns (claimed: seq<Ticket>, ghost recovered: seq<RowMove>, ghost taken: seq<RowMove>)
      requires Wired() && repository.Valid()
      modifies repository, repository.tables
      ensures repository.Valid()
      ensures PollDid(old(repository.Cols()), repository.tables.outbox, claimed, locked, batchSize, now,
                      repository.claimLeaseMs, repository.maxAttempts)
      ensures Only(recovered, Expire) && Only(taken, Acquire)
      ensures DistinctKeys(claimed) && Waiting(claimed, 0, Moves(Moves(old(repository.tables.outbox), recovered,
                                               repository.maxAttempts), taken, repository.maxAttempts))
      ensures repository.tables.State() ==
                PollState(old(repository.tables.State()), recovered, taken, claimed, repository.maxAttempts)
    {
      ghost var was := repository.Cols();
      ghost var selected, order, r, c;
      claimed, selected, recovered, taken, order, r, c := TakeBatch(now, locked, was);
      ProcessBatch(claimed, now);
      PollDoes(was, order, r, c, repository.tables.outbox, selected, claimed, locked, batchSize, now,
               repository.claimLeaseMs, repository.maxAttempts);
    }

    method TakeBatch(now: int, locked: set<EventKey>, ghost was: Columns)
      returns (claimed: seq<Ticket>, ghost selected: seq<Ticket>, ghost recovered: seq<RowMove>,
               ghost taken: seq<RowMove>, ghost order: seq<EventKey>, ghost r: Columns, ghost c: Rows)
      requires Wired() && repository.Valid() && was == repository.Cols()
      modifies repository, repository.tables
      ensures repository.Valid() && c == repository.tables.outbox
      ensures TookBatch(was, order, r, c, selected, claimed, locked, batchSize, now, repository.claimLeaseMs,
                        repository.maxAttempts)
      ensures Only(recovered, Expire) && Only(taken, Acquire) && AllHeld(claimed, c)
      ensures repository.tables.State() == old(repository.tables.State()).(outbox :=
                Moves(Moves(was.rows, recovered, repository.maxAttempts), taken, repository.maxAttempts))
    {
      recovered, order := repository.RecoverExpiredClaims(now);
      r := repository.Cols();
      claimed, selected, taken := repository.ClaimPending(batchSize, now, locked);
      c := repository.tables.outbox;
      assert repository.Times() == r.s;
    }

    method ProcessBatch(claimed: seq<Ticket>, now: int)
      requires Wired() && repository.Valid()
      requires DistinctKeys(claimed) && Waiting(claimed, 0, repository.tables.outbox)
      modifies repository, repository.tables
      ensures repository.Valid()
      ensures BatchDid(old(repository.tables.outbox), repository.tables.outbox, claimed)
      ensures repository.tables.State() == BatchState(old(repository.tables.State()), claimed, repository.maxAttempts)
    {
      ghost var db := repository.tables.State();
      for i := 0 to |claimed|
        invariant repository.Valid() && Waiting(claimed, i, repository.tables.outbox)
        invariant repository.tables.State() == BatchState(db, claimed[..i], repository.maxAttempts)
      {
        ghost var before := repository.tables.State();
        assert HasTicket(claimed[i], before.outbox, AtStart);
        ProcessClaimedEvent(claimed[i], now);
        ProcessingLeavesOthers(before, claimed, i, repository.maxAttempts);
        BatchSnoc(db, claimed, i, repository.maxAttempts);
      }
      BatchReports(db, claimed, |claimed|, repository.maxAttempts);
      assert claimed[..|claimed|] == claimed;
    }
  }
}
