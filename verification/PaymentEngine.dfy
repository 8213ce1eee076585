/** The transactions of the API's `PaymentEngineService`, a second implementation of the lifecycle. */
module PaymentEngine {
  import opened Text
  import opened Store
  import opened Funding

  predicate MeetsRequirements(d: Details, m: Merchant) {
    && d.amount > 0
    && d.currency == "USD"
    && d.externalReference.Some? && Trim(d.externalReference.value) != ""
    && Trim(d.receiverAccountRef) != "" && Trim(d.routingNumber) != ""
    && m.status.Active?
    && (d.direction.Debit? ==> m.profile.allowAchDebit)
    && (d.direction.Credit? ==> m.profile.allowAchCredit)
    && d.amount <= m.profile.perPaymentLimit
  }

  /** `validate`, taken as one atomic step; it does not charge the daily usage. */
  function Validate(db: Db, id: PaymentId): Result<Db> {
    if id !in db.payments then Err(NotFound)
    else
      var p := db.payments[id];
      if !p.status.Received? then Ok(db)
      else if p.details.merchantId !in db.merchants then Err(NotFound)
      else if !MeetsRequirements(p.details, db.merchants[p.details.merchantId]) then Err(BadRequest)
      else
        var validated := p.(status := Validated, validationCode := None, failureCode := None);
        EmitEvent(db.(payments := db.payments[id := validated]), id, PaymentValidated)
  }

  /** The first half of `validate`: the payment and its merchant are read, and let the transaction start. */
  predicate ReadPasses(db: Db, id: PaymentId) {
    && id in db.payments && db.payments[id].status.Received?
    && db.payments[id].details.merchantId in db.merchants
    && MeetsRequirements(db.payments[id].details, db.merchants[db.payments[id].details.merchantId])
  }

  /** The second half, its transaction: the payment is updated by its id alone, then the event is created. */
  function WriteValidated(db: Db, id: PaymentId): Result<Db> {
    if id !in db.payments then Err(NotFound)
    else
      var validated := db.payments[id].(status := Validated, validationCode := None, failureCode := None);
      EmitEvent(db.(payments := db.payments[id := validated]), id, PaymentValidated)
  }

  /** Both halves on one state are the atomic step. */
  lemma AtOnce(db: Db, id: PaymentId)
    ensures ReadPasses(db, id) ==> Validate(db, id) == WriteValidated(db, id)
    ensures !ReadPasses(db, id) ==> Commit(db, Validate(db, id)) == db
  {
  }

  /** `reserve`. */
  ghost function Reserve(db: Db, id: PaymentId): Result<Db> {
    if id !in db.payments then Err(NotFound)
    else
      var p := db.payments[id];
      var a := AccountOf(p.details);
      if id in db.holds then Ok(db)
      else if !p.status.Validated? then Err(BadRequest)
      else if !p.details.direction.Credit? then Ok(db)
      else if p.details.merchantId !in db.merchants then Err(NotFound)
      else if Utilized(db.usage, p.details.merchantId, BusinessDate(p)) + p.details.amount
              > db.merchants[p.details.merchantId].profile.dailyAmountLimit then Err(BadRequest)
      else if !AccountUsable(db, a) then Err(BadRequest)
      else if Available(db, a) < p.details.amount then Err(BadRequest)
      else
        var db1 := SetHold(db, id, Hold(a, p.details.amount, HoldActive, None));
        var db2 :- PostEntry(db1, ReservationKey(id), Entry(a, Some(id), ReservationEntry, p.details.amount));
        EmitEvent(AddUsage(db2, id), id, PaymentReserved)
  }

  /** `settle`: the payment is checked before the reservation is written. */
  function Settle(db: Db, id: PaymentId): Result<Db> {
    if id !in db.holds then SettleDebit(db, id)
    else
      var h := db.holds[id];
      if h.status.HoldSettled? then Ok(db)
      else if !h.status.HoldActive? then Err(BadRequest)
      else if id !in db.payments then Err(NotFound)
      else if !db.payments[id].status.Submitted? then Err(BadRequest)
      else
        var db1 := SetStatus(SetHold(db, id, h.(status := HoldSettled)), id, Settled);
        var db2 :- PostEntry(db1, SettlementKey(id), Entry(h.account, Some(id), Settlement, h.amount));
        EmitEvent(db2, id, PaymentSettled)
  }

  /** `settleDebitPayment`. */
  function SettleDebit(db: Db, id: PaymentId): Result<Db> {
    if id !in db.payments then Err(NotFound)
    else
      var p := db.payments[id];
      var a := AccountOf(p.details);
      if !p.details.direction.Debit? then Err(NotFound)
      else if p.status.Settled? then Ok(db)
      else if !p.status.Submitted? then Err(BadRequest)
      else if !AccountUsable(db, a) then Err(BadRequest)
      else
        var db1 :- PostEntry(SetStatus(db, id, Settled), DebitPostedKey(id),
                             Entry(a, Some(id), DebitPosted, p.details.amount));
        EmitEvent(db1, id, PaymentSettled)
  }

  /** `returnSettlement`: the payment's own status is not checked here. */
  function Return(db: Db, id: PaymentId, returnCode: string): Result<Db> {
    if id !in db.holds then ReturnDebit(db, id, returnCode)
    else
      var h := db.holds[id];
      if h.status.HoldReturned? then Ok(db)
      else if !h.status.HoldSettled? then Err(BadRequest)
      else if id !in db.payments then Err(NotFound)
      else
        var returned := h.(status := HoldReturned, returnCode := Some(returnCode));
        var db1 := SetStatus(SetHold(db, id, returned), id, Returned);
        var db2 :- PostEntry(db1, ReturnKey(id), Entry(h.account, Some(id), ReturnEntry, h.amount));
        EmitEvent(db2, id, PaymentReturned, Some(returnCode))
  }

  /** `returnDebitPayment`. */
  function ReturnDebit(db: Db, id: PaymentId, returnCode: string): Result<Db> {
    if id !in db.payments || !db.payments[id].details.direction.Debit? then Err(NotFound)
    else
      var p := db.payments[id];
      if p.status.Returned? then Ok(db)
      else if !p.status.Settled? then Err(BadRequest)
      else if DebitPostedKey(id) !in db.ledger then Err(BadRequest)
      else
        var posted := db.ledger[DebitPostedKey(id)];
        if posted.paymentId != Some(id) || !posted.entryType.DebitPosted? || posted.amount != p.details.amount
        then Err(BadRequest)
        else
          var db1 := db.(payments := db.payments[id := p.(status := Returned, failureCode := Some(returnCode))]);
          var db2 :- PostEntry(db1, DebitReturnKey(id), Entry(posted.account, Some(id), ReturnEntry, posted.amount));
          EmitEvent(db2, id, PaymentReturned, Some(returnCode))
  }
}
