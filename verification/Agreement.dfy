/** The two implementations of the lifecycle agree wherever the tables mirror each other, and no
    enabled transaction ever meets an existing key. */
module Agreement {
  import opened Store
  import opened Funding
  import opened Effects
  import opened Mirroring
  import Worker = WorkerLifecycle
  import Engine = PaymentEngine

  // ---------- Settlement ----------

  function SettleEffect(db: Db, id: PaymentId): Result<Db> {
    if id in db.holds && id in db.payments then
      match db.holds[id].status
      case HoldSettled => Ok(db)
      case HoldActive => if db.payments[id].status.Submitted? then Ok(CreditSettled(db, id)) else Err(BadRequest)
      case _ => Err(BadRequest)
    else if id !in db.payments || db.payments[id].details.direction.Credit? then Err(NotFound)
    else if db.payments[id].status.Settled? then Ok(db)
    else if db.payments[id].status.Submitted? && AccountUsable(db, AccountOf(db.payments[id].details))
    then Ok(DebitSettled(db, id))
    else Err(BadRequest)
  }

  lemma WorkerSettleHeld(db: Db, id: PaymentId)
    requires SliceOk(id, db.payments, db.holds, db.ledger, db.outbox.Keys) && id in db.holds
    ensures Worker.Settle(db, id) == SettleEffect(db, id)
  {
  }

  lemma WorkerSettleUnheld(db: Db, id: PaymentId)
    requires SliceOk(id, db.payments, db.holds, db.ledger, db.outbox.Keys) && id !in db.holds
    ensures Worker.Settle(db, id) == SettleEffect(db, id)
  {
  }

  lemma WorkerSettleIs(db: Db, id: PaymentId)
    requires Mirrored(db)
    ensures Worker.Settle(db, id) == SettleEffect(db, id)
  {
    SliceOf(db, id);
    if id in db.holds {
      WorkerSettleHeld(db, id);
    } else {
      WorkerSettleUnheld(db, id);
    }
  }

  lemma EngineSettleHeld(db: Db, id: PaymentId)
    requires SliceOk(id, db.payments, db.holds, db.ledger, db.outbox.Keys) && id in db.holds
    ensures Engine.Settle(db, id) == SettleEffect(db, id)
  {
  }

  lemma EngineSettleUnheld(db: Db, id: PaymentId)
    requires SliceOk(id, db.payments, db.holds, db.ledger, db.outbox.Keys) && id !in db.holds
    ensures Engine.Settle(db, id) == SettleEffect(db, id)
  {
  }

  lemma EngineSettleIs(db: Db, id: PaymentId)
    requires Mirrored(db)
    ensures Engine.Settle(db, id) == SettleEffect(db, id)
  {
    SliceOf(db, id);
    if id in db.holds {
      EngineSettleHeld(db, id);
    } else {
      EngineSettleUnheld(db, id);
    }
  }

  // ---------- Returns ----------

  function ReturnEffect(db: Db, id: PaymentId, returnCode: string): Result<Db> {
    if id in db.holds && id in db.payments then
      match db.holds[id].status
      case HoldReturned => Ok(db)
      case HoldSettled => Ok(CreditReturned(db, id, returnCode))
      case _ => Err(BadRequest)
    else if id !in db.payments || db.payments[id].details.direction.Credit? then Err(NotFound)
    else if db.payments[id].status.Returned? then Ok(db)
    else if db.payments[id].status.Settled? then Ok(DebitReturned(db, id, returnCode))
    else Err(BadRequest)
  }

  lemma WorkerReturnHeld(db: Db, id: PaymentId, returnCode: string)
    requires SliceOk(id, db.payments, db.holds, db.ledger, db.outbox.Keys) && id in db.holds
    ensures Worker.Return(db, id, returnCode) == ReturnEffect(db, id, returnCode)
  {
  }

  lemma WorkerReturnUnheld(db: Db, id: PaymentId, returnCode: string)
    requires SliceOk(id, db.payments, db.holds, db.ledger, db.outbox.Keys) && id !in db.holds
    ensures Worker.Return(db, id, returnCode) == ReturnEffect(db, id, returnCode)
  {
  }

  lemma WorkerReturnIs(db: Db, id: PaymentId, returnCode: string)
    requires Mirrored(db)
    ensures Worker.Return(db, id, returnCode) == ReturnEffect(db, id, returnCode)
  {
    SliceOf(db, id);
    if id in db.holds {
      WorkerReturnHeld(db, id, returnCode);
    } else {
      WorkerReturnUnheld(db, id, returnCode);
    }
  }

  lemma EngineReturnHeld(db: Db, id: PaymentId, returnCode: string)
    requires SliceOk(id, db.payments, db.holds, db.ledger, db.outbox.Keys) && id in db.holds
    ensures Engine.Return(db, id, returnCode) == ReturnEffect(db, id, returnCode)
  {
  }

  lemma EngineReturnUnheld(db: Db, id: PaymentId, returnCode: string)
    requires SliceOk(id, db.payments, db.holds, db.ledger, db.outbox.Keys) && id !in db.holds
    ensures Engine.Return(db, id, returnCode) == ReturnEffect(db, id, returnCode)
  {
  }

  lemma EngineReturnIs(db: Db, id: PaymentId, returnCode: string)
    requires Mirrored(db)
    ensures Engine.Return(db, id, returnCode) == ReturnEffect(db, id, returnCode)
  {
    SliceOf(db, id);
    if id in db.holds {
      EngineReturnHeld(db, id, returnCode);
    } else {
      EngineReturnUnheld(db, id, returnCode);
    }
  }

  // ---------- Releases ----------

  lemma WorkerReleaseIs(db: Db, id: PaymentId)
    requires Mirrored(db)
    ensures Worker.Release(db, id) ==
              if id !in db.holds || id !in db.payments then Err(NotFound)
              else if db.holds[id].status.HoldReleased? then Ok(db)
              else Ok(Released(db, id))
  {
    SliceOf(db, id);
  }

  // ---------- Validation ----------

  /** The two rule lists accept the same payments, whatever the order of their checks. */
  lemma ValidationRulesAgree(d: Details, m: Merchant)
    ensures Worker.ValidatePayment(d, Some(m)).Pass? <==> Engine.MeetsRequirements(d, m)
  {
  }

  lemma EngineValidateIs(db: Db, id: PaymentId)
    requires Mirrored(db) && id in db.payments && db.payments[id].details.merchantId in db.merchants
    ensures Engine.Validate(db, id) ==
              if !db.payments[id].status.Received? then Ok(db)
              else if !Engine.MeetsRequirements(db.payments[id].details, db.merchants[db.payments[id].details.merchantId])
              then Err(BadRequest)
              else Ok(ToVerdict(db, id, None))
  {
    SliceOf(db, id);
  }

  lemma TransitionIs(db: Db, id: PaymentId, v: Worker.Verdict)
    requires Mirrored(db) && id in db.payments && db.payments[id].status.Received?
    ensures Worker.TransitionFromReceived(db, id, v) ==
              Ok(ToVerdict(db, id, if v.Pass? then None else Some(v.code)))
  {
    SliceOf(db, id);
  }

  // ---------- Admission ----------

  /** What the API's reserve checks before it writes. */
  ghost predicate Reservable(db: Db, id: PaymentId)
    requires id in db.payments
  {
    var p := db.payments[id];
    && p.details.merchantId in db.merchants
    && Utilized(db.usage, p.details.merchantId, BusinessDate(p)) + p.details.amount
       <= db.merchants[p.details.merchantId].profile.dailyAmountLimit
    && AccountUsable(db, AccountOf(p.details))
    && Available(db, AccountOf(p.details)) >= p.details.amount
  }

  lemma EngineReserveIs(db: Db, id: PaymentId)
    requires Mirrored(db) && id in db.payments && db.payments[id].details.merchantId in db.merchants
    requires id !in db.holds && db.payments[id].status.Validated? && db.payments[id].details.direction.Credit?
    ensures Engine.Reserve(db, id) == if Reservable(db, id) then Ok(Admitted(db, id)) else Err(BadRequest)
  {
    SliceOf(db, id);
  }

  /** A payment that is still RECEIVED has written none of the keys an admission writes. */
  predicate Untouched(db: Db, id: PaymentId) {
    && id in db.payments && db.payments[id].status.Received? && db.payments[id].details.merchantId in db.merchants
    && id !in db.holds && ReservationKey(id) !in db.ledger
    && Lifecycle(id, PaymentValidated) !in db.outbox && Lifecycle(id, PaymentValidationFailed) !in db.outbox
    && Lifecycle(id, PaymentReserved) !in db.outbox
  }

  lemma ReceivedIsUntouched(db: Db, id: PaymentId)
    requires Mirrored(db) && id in db.payments && db.payments[id].status.Received?
    requires db.payments[id].details.merchantId in db.merchants
    ensures Untouched(db, id)
  {
    SliceOf(db, id);
  }

  lemma WorkerRejects(db: Db, id: PaymentId, key: EventKey)
    requires Untouched(db, id) && Worker.Decide(db, id).Fail?
    ensures Worker.ReserveDailyUsageAndTransition(db, id, key)
         == Worker.CompleteOutbox(ToVerdict(db, id, Some(Worker.Decide(db, id).code)), key)
  {
  }

  lemma WorkerAdmitsDebit(db: Db, id: PaymentId, key: EventKey)
    requires Untouched(db, id) && Worker.Decide(db, id).Pass? && db.payments[id].details.direction.Debit?
    ensures Worker.ReserveDailyUsageAndTransition(db, id, key) == Worker.CompleteOutbox(DebitAdmitted(db, id), key)
  {
  }

  lemma CreditDecisionIs(db: Db, id: PaymentId)
    requires Untouched(db, id) && db.payments[id].details.direction.Credit?
    ensures Worker.RecordDecision(db, id, Worker.Pass) == Ok(Admitted(ToVerdict(db, id, None), id))
  {
  }

  lemma WorkerAdmitsCredit(db: Db, id: PaymentId, key: EventKey)
    requires Untouched(db, id) && Worker.Decide(db, id).Pass? && db.payments[id].details.direction.Credit?
    ensures Worker.ReserveDailyUsageAndTransition(db, id, key)
         == Worker.CompleteOutbox(Admitted(ToVerdict(db, id, None), id), key)
  {
    CreditDecisionIs(db, id);
  }

  // ---------- The main agreements ----------

  /** The worker's extra VALIDATED arm of a return is never the one taken. */
  lemma ValidatedArmIsUnreachable(db: Db, id: PaymentId)
    requires Mirrored(db) && id in db.payments && id in db.holds && db.holds[id].status.HoldSettled?
    ensures db.payments[id].status.Settled?
  {
    SliceOf(db, id);
  }

  /** For a credit, the API's validate followed by reserve is the worker's one accepting
      transaction, which additionally completes the claimed outbox row. */
  lemma CreditAdmissionAgrees(db: Db, id: PaymentId, key: EventKey)
    requires Mirrored(db) && id in db.payments && db.payments[id].status.Received?
    requires db.payments[id].details.direction.Credit? && db.payments[id].details.merchantId in db.merchants
    requires Engine.MeetsRequirements(db.payments[id].details, db.merchants[db.payments[id].details.merchantId])
    ensures var validated := Engine.Validate(db, id);
            && validated.Ok?
            && (Worker.Decide(db, id).Pass? <==> Engine.Reserve(validated.value, id).Ok?)
            && (Worker.Decide(db, id).Pass? ==>
                  Worker.ReserveDailyUsageAndTransition(db, id, key)
                  == Worker.CompleteOutbox(Engine.Reserve(validated.value, id).value, key))
  {
    EngineValidateIs(db, id);
    var d := ToVerdict(db, id, None);
    ToVerdictMirrors(db, id, None);
    SliceOf(db, id);
    EngineReserveIs(d, id);
    if Worker.Decide(db, id).Pass? {
      ReceivedIsUntouched(db, id);
      WorkerAdmitsCredit(db, id, key);
    }
  }
}
