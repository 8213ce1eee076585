/** The transactions of the worker: what each commits, or that it is rolled back. */
module WorkerLifecycle {
  import opened Text
  import opened Store
  import opened OutboxProtocol
  import opened Funding

  datatype Verdict = Pass | Fail(code: string)

  function Blank(s: Option<string>): bool {
    s.None? || Trim(s.value) == ""
  }

  /** `PaymentValidationService.validatePayment`: the first failing rule decides. */
  function ValidatePayment(d: Details, merchant: Option<Merchant>): Verdict {
    if d.amount <= 0 then Fail("INVALID_AMOUNT")
    else if d.currency != "USD" then Fail("UNSUPPORTED_CURRENCY")
    else if Blank(d.externalReference) then Fail("MISSING_EXTERNAL_REFERENCE")
    else if merchant.None? then Fail("MERCHANT_NOT_FOUND")
    else if !merchant.value.status.Active? then Fail("MERCHANT_NOT_ACTIVE")
    else if d.direction.Debit? && !merchant.value.profile.allowAchDebit then Fail("ACH_DEBIT_NOT_ALLOWED")
    else if d.direction.Credit? && !merchant.value.profile.allowAchCredit then Fail("ACH_CREDIT_NOT_ALLOWED")
    else if d.amount > merchant.value.profile.perPaymentLimit then Fail("PER_PAYMENT_LIMIT_EXCEEDED")
    else if Trim(d.receiverAccountRef) == "" || Trim(d.routingNumber) == "" then Fail("MISSING_ACCOUNT_REFERENCE")
    else Pass
  }

  function TransitionData(p: Payment, v: Verdict): Payment {
    var code := if v.Pass? then None else Some(v.code);
    p.(status := if v.Pass? then Validated else ValidationFailed, validationCode := code, failureCode := code)
  }

  function CompleteOutbox(db: Db, key: EventKey): Result<Db> {
    if key in db.outbox && db.outbox[key].claim.status.Processing?
    then Ok(StepRow(db, key, Complete, 0))
    else Err(NotClaimed)
  }

  /** `transitionFromReceived`. */
  function TransitionFromReceived(db: Db, id: PaymentId, v: Verdict): Result<Db> {
    if id !in db.payments then Err(NotFound)
    else if db.payments[id].status.Received? then
      var updated := db.(payments := db.payments[id := TransitionData(db.payments[id], v)]);
      EmitEvent(updated, id, if v.Pass? then PaymentValidated else PaymentValidationFailed)
    else if db.payments[id].status.Validated? || db.payments[id].status.ValidationFailed? then Ok(db)
    else Err(BadRequest)
  }

  /** The business decision of `reserveDailyUsageAndTransition`. */
  ghost function Decide(db: Db, id: PaymentId): Verdict
    requires id in db.payments && db.payments[id].details.merchantId in db.merchants
  {
    var p := db.payments[id];
    var a := AccountOf(p.details);
    var limit := db.merchants[p.details.merchantId].profile.dailyAmountLimit;
    if Utilized(db.usage, p.details.merchantId, BusinessDate(p)) + p.details.amount > limit
    then Fail("EXCEEDS_DAILY_AMOUNT_LIMIT")
    else if p.details.direction.Debit? then Pass
    else if !AccountUsable(db, a) then Fail("FUNDING_ACCOUNT_UNAVAILABLE")
    else if Available(db, a) < p.details.amount then Fail("INSUFFICIENT_FUNDS")
    else Pass
  }

  /** `reserveDailyUsageAndTransition`. */
  ghost function ReserveDailyUsageAndTransition(db: Db, id: PaymentId, key: EventKey): Result<Db> {
    if id !in db.payments then Err(NotFound)
    else
      var p := db.payments[id];
      if !p.status.Received? then CompleteOutbox(db, key)
      else if p.details.merchantId !in db.merchants then Err(BadRequest)
      else
        var recorded :- RecordDecision(db, id, Decide(db, id));
        CompleteOutbox(recorded, key)
  }

  /** The writes of that transaction, from the reservation to the lifecycle events. */
  function RecordDecision(db: Db, id: PaymentId, v: Verdict): Result<Db>
    requires id in db.payments
  {
    var p := db.payments[id];
    var db1 :- if v.Pass? && p.details.direction.Credit? then Reserve(db, id) else Ok(db);
    var db2 := if v.Pass? then AddUsage(db1, id) else db1;
    var db3 := db2.(payments := db2.payments[id := TransitionData(p, v)]);
    var db4 :- EmitEvent(db3, id, if v.Pass? then PaymentValidated else PaymentValidationFailed);
    if v.Pass? && p.details.direction.Credit? then EmitEvent(db4, id, PaymentReserved) else Ok(db4)
  }

  /** `reservation.create` with its audit entry. */
  function Reserve(db: Db, id: PaymentId): (r: Result<Db>)
    requires id in db.payments
    ensures r.Ok? ==> r.value.payments == db.payments && r.value.usage == db.usage && r.value.outbox == db.outbox
  {
    var p := db.payments[id];
    var a := AccountOf(p.details);
    if id in db.holds then Err(UniqueViolation)
    else
      var held := SetHold(db, id, Hold(a, p.details.amount, HoldActive, None));
      PostEntry(held, ReservationKey(id), Entry(a, Some(id), ReservationEntry, p.details.amount))
  }

  /** `releaseReservationForPayment`: any hold that is not yet released. */
  function Release(db: Db, id: PaymentId): Result<Db> {
    if id !in db.holds then Err(NotFound)
    else
      var h := db.holds[id];
      if h.status.HoldReleased? then Ok(db)
      else
        PostEntry(SetHold(db, id, h.(status := HoldReleased)), ReleaseKey(id),
                  Entry(h.account, Some(id), ReservationRelease, h.amount))
  }

  /** `settleReservationForPayment`. */
  function Settle(db: Db, id: PaymentId): Result<Db> {
    if id !in db.holds then SettleDebit(db, id)
    else
      var h := db.holds[id];
      if h.status.HoldSettled? then Ok(db)
      else if !h.status.HoldActive? then Err(BadRequest)
      else
        var db1 := SetHold(db, id, h.(status := HoldSettled));
        if id !in db1.payments || !db1.payments[id].status.Submitted? then Err(BadRequest)
        else
          var db2 := SetStatus(db1, id, Settled);
          var db3 :- PostEntry(db2, SettlementKey(id), Entry(h.account, Some(id), Settlement, h.amount));
          EmitEvent(db3, id, PaymentSettled)
  }

  /** `settleDebitPayment`. */
  function SettleDebit(db: Db, id: PaymentId): Result<Db> {
    if id !in db.payments || !db.payments[id].details.direction.Debit? then Err(NotFound)
    else
      var p := db.payments[id];
      var a := AccountOf(p.details);
      if p.status.Settled? then Ok(db)
      else if !p.status.Submitted? then Err(BadRequest)
      else if !AccountUsable(db, a) then Err(BadRequest)
      else
        var db1 := SetStatus(db, id, Settled);
        var db2 :- PostEntry(db1, DebitPostedKey(id), Entry(a, Some(id), DebitPosted, p.details.amount));
        EmitEvent(db2, id, PaymentSettled)
  }

  /** `returnSettlementForPayment`: the worker also accepts a payment that is still VALIDATED. */
  function Return(db: Db, id: PaymentId, returnCode: string): Result<Db> {
    if id !in db.holds then ReturnDebit(db, id, returnCode)
    else
      var h := db.holds[id];
      if h.status.HoldReturned? then Ok(db)
      else if !h.status.HoldSettled? then Err(BadRequest)
      else
        var db1 := SetHold(db, id, h.(status := HoldReturned, returnCode := Some(returnCode)));
        if id !in db1.payments || !(db1.payments[id].status.Settled? || db1.payments[id].status.Validated?)
        then Err(BadRequest)
        else
          var db2 := SetStatus(db1, id, Returned);
          var db3 :- PostEntry(db2, ReturnKey(id), Entry(h.account, Some(id), ReturnEntry, h.amount));
          EmitEvent(db3, id, PaymentReturned, Some(returnCode))
  }

  /** `returnDebitPayment`. */
  function ReturnDebit(db: Db, id: PaymentId, returnCode: string): Result<Db> {
    if id !in db.payments || !db.payments[id].details.direction.Debit? then Err(NotFound)
    else
      var p := db.payments[id];
      if p.status.Returned? then Ok(db)
      else if !p.status.Settled? then Err(BadRequest)
      else if !PostedDebitIsValid(db, id) then Err(BadRequest)
      else
        var posted := db.ledger[DebitPostedKey(id)];
        var db1 := db.(payments := db.payments[id := p.(status := Returned, failureCode := Some(returnCode))]);
        var db2 :- PostEntry(db1, DebitReturnKey(id), Entry(posted.account, Some(id), ReturnEntry, posted.amount));
        EmitEvent(db2, id, PaymentReturned, Some(returnCode))
  }

  predicate PostedDebitIsValid(db: Db, id: PaymentId)
    requires id in db.payments
  {
    && DebitPostedKey(id) in db.ledger
    && var posted := db.ledger[DebitPostedKey(id)];
       posted.paymentId == Some(id) && posted.entryType.DebitPosted? && posted.amount == db.payments[id].details.amount
  }
}
