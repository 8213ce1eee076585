/** The elementary committed effects. On states where the tables mirror each other, every
    transaction of either implementation is one of these or a composition of a few. */
module Effects {
  import opened Store
  import opened Funding

  type Payments = map<PaymentId, Payment>
  type Holds = map<PaymentId, Hold>
  type Ledger = map<EntryKey, Entry>

  // ---------- How the tables mirror each other ----------

  ghost predicate Mirrors(l: Ledger, key: EntryKey, present: bool, e: Entry) {
    (key in l <==> present) && (present ==> l[key] == e)
  }

  /** A reservation agrees with its payment, and its status bounds the payment's. */
  predicate HoldOk(p: Payment, h: Hold) {
    && p.details.direction.Credit?
    && h.account == AccountOf(p.details) && h.amount == p.details.amount
    && !p.status.Received? && !p.status.ValidationFailed?
    && (h.status.HoldActive? ==> p.status.Validated? || p.status.Submitted?)
    && (h.status.HoldSettled? ==> p.status.Settled?)
    && (h.status.HoldReturned? ==> p.status.Returned?)
  }

  predicate Cleared(p: Payment) {
    p.status.Settled? || p.status.Returned?
  }

  function Paying(id: PaymentId, p: Payment, t: EntryType): Entry {
    Entry(AccountOf(p.details), Some(id), t, p.details.amount)
  }

  /** The ledger entries of a payment are a function of its status and its reservation. */
  ghost predicate LedgerMirrors(id: PaymentId, p: Payment, hs: Holds, l: Ledger) {
    var credit, debit := p.details.direction.Credit?, p.details.direction.Debit?;
    && Mirrors(l, ReservationKey(id), id in hs, Paying(id, p, ReservationEntry))
    && Mirrors(l, ReleaseKey(id), id in hs && hs[id].status.HoldReleased?, Paying(id, p, ReservationRelease))
    && Mirrors(l, SettlementKey(id), credit && Cleared(p), Paying(id, p, Settlement))
    && Mirrors(l, ReturnKey(id), credit && p.status.Returned?, Paying(id, p, ReturnEntry))
    && Mirrors(l, DebitPostedKey(id), debit && Cleared(p), Paying(id, p, DebitPosted))
    && Mirrors(l, DebitReturnKey(id), debit && p.status.Returned?, Paying(id, p, ReturnEntry))
  }

  /** Which lifecycle events a payment has emitted. */
  ghost predicate EventsMirror(id: PaymentId, p: Payment, held: bool, events: set<EventKey>) {
    && Lifecycle(id, PaymentReceived) in events
    && (Lifecycle(id, PaymentValidated) in events <==> !p.status.Received? && !p.status.ValidationFailed?)
    && (Lifecycle(id, PaymentValidationFailed) in events <==> p.status.ValidationFailed?)
    && (Lifecycle(id, PaymentReserved) in events <==> held)
    && (Lifecycle(id, PaymentSubmitted) in events <==> p.status.Submitted? || Cleared(p))
    && (Lifecycle(id, PaymentSettled) in events <==> Cleared(p))
    && (Lifecycle(id, PaymentReturned) in events <==> p.status.Returned?)
  }

  ghost predicate NoTrace(id: PaymentId, hs: Holds, l: Ledger, events: set<EventKey>) {
    && id !in hs
    && ReservationKey(id) !in l && ReleaseKey(id) !in l && SettlementKey(id) !in l && ReturnKey(id) !in l
    && DebitPostedKey(id) !in l && DebitReturnKey(id) !in l
    && forall t :: Lifecycle(id, t) !in events
  }

  /** Everything the tables hold about one payment id. */
  ghost predicate SliceOk(id: PaymentId, ps: Payments, hs: Holds, l: Ledger, events: set<EventKey>) {
    if id !in ps then NoTrace(id, hs, l, events)
    else
      var p := ps[id];
      && p.details.amount > 0
      && (id in hs ==> HoldOk(p, hs[id]))
      && (p.details.direction.Credit? && Cleared(p) ==> id in hs)
      && (p.file.Some? <==> p.status.Submitted? || Cleared(p))
      && LedgerMirrors(id, p, hs, l)
      && EventsMirror(id, p, id in hs, events)
  }

  ghost predicate Slices(ps: Payments, hs: Holds, l: Ledger, events: set<EventKey>) {
    forall id :: SliceOk(id, ps, hs, l, events)
  }

  ghost predicate Mirrored(db: Db) {
    Slices(db.payments, db.holds, db.ledger, db.outbox.Keys)
  }

  lemma SliceOf(db: Db, id: PaymentId)
    requires Mirrored(db)
    ensures SliceOk(id, db.payments, db.holds, db.ledger, db.outbox.Keys)
  {
  }

  // ---------- The effects ----------

  function Emit(db: Db, id: PaymentId, t: EventType, returnCode: Option<string> := None): Db
    requires id in db.payments
  {
    db.(outbox := db.outbox[Lifecycle(id, t) := NewEvent(db.payments[id], returnCode)])
  }

  function Post(db: Db, key: EntryKey, e: Entry): Db {
    db.(ledger := db.ledger[key := e])
  }

  function WithVerdict(p: Payment, code: Option<string>): Payment {
    p.(status := if code.None? then Validated else ValidationFailed, validationCode := code, failureCode := code)
  }

  /** RECEIVED to VALIDATED or VALIDATION_FAILED. */
  function ToVerdict(db: Db, id: PaymentId, code: Option<string>): Db
    requires id in db.payments
  {
    Emit(db.(payments := db.payments[id := WithVerdict(db.payments[id], code)]), id,
         if code.None? then PaymentValidated else PaymentValidationFailed)
  }

  /** A new ACTIVE reservation for a validated credit. */
  function Held(db: Db, id: PaymentId): Db
    requires id in db.payments
  {
    var p := db.payments[id];
    var held := SetHold(db, id, Hold(AccountOf(p.details), p.details.amount, HoldActive, None));
    Emit(Post(held, ReservationKey(id), Paying(id, p, ReservationEntry)), id, PaymentReserved)
  }

  /** Reserving funds for a validated credit and charging its daily usage. */
  function Admitted(db: Db, id: PaymentId): Db
    requires id in db.payments
  {
    Held(AddUsage(db, id), id)
  }

  /** The worker also charges a debit, which needs no reservation. */
  function DebitAdmitted(db: Db, id: PaymentId): Db
    requires id in db.payments
  {
    AddUsage(ToVerdict(db, id, None), id)
  }

  function Released(db: Db, id: PaymentId): Db
    requires id in db.payments && id in db.holds
  {
    Post(SetHold(db, id, db.holds[id].(status := HoldReleased)), ReleaseKey(id),
         Paying(id, db.payments[id], ReservationRelease))
  }

  function CreditSettled(db: Db, id: PaymentId): Db
    requires id in db.payments && id in db.holds
  {
    var cleared := SetStatus(SetHold(db, id, db.holds[id].(status := HoldSettled)), id, Settled);
    Emit(Post(cleared, SettlementKey(id), Paying(id, db.payments[id], Settlement)), id, PaymentSettled)
  }

  function DebitSettled(db: Db, id: PaymentId): Db
    requires id in db.payments
  {
    Emit(Post(SetStatus(db, id, Settled), DebitPostedKey(id), Paying(id, db.payments[id], DebitPosted)),
         id, PaymentSettled)
  }

  function CreditReturned(db: Db, id: PaymentId, returnCode: string): Db
    requires id in db.payments && id in db.holds
  {
    var held := SetHold(db, id, db.holds[id].(status := HoldReturned, returnCode := Some(returnCode)));
    Emit(Post(SetStatus(held, id, Returned), ReturnKey(id), Paying(id, db.payments[id], ReturnEntry)),
         id, PaymentReturned, Some(returnCode))
  }

  function DebitReturned(db: Db, id: PaymentId, returnCode: string): Db
    requires id in db.payments
  {
    var p := db.payments[id].(status := Returned, failureCode := Some(returnCode));
    Emit(Post(db.(payments := db.payments[id := p]), DebitReturnKey(id), Paying(id, db.payments[id], ReturnEntry)),
         id, PaymentReturned, Some(returnCode))
  }
}
