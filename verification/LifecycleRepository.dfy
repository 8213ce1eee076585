/** The worker's repository: its transactions, statement by statement, against the specification
    in WorkerLifecycle. */
module LifecycleRepository {
  import opened Store
  import opened OutboxProtocol
  import opened Database
  import Worker = WorkerLifecycle

  class PaymentLifecycleRepository {
    const tables: Tables

    constructor (tables: Tables)
      ensures this.tables == tables
    {
      this.tables := tables;
    }

    // ---------- Release ----------

    method ReleaseReservationForPayment(id: PaymentId) returns (r: Result<()>)
      modifies tables
      ensures var spec := Worker.Release(old(tables.State()), id);
              r == Outcome(spec) && tables.State() == Commit(old(tables.State()), spec)
    {
      var saved := tables.State();
      r := Release(id);
      if r.Err? {
        tables.Rollback(saved);
      }
    }

    method Release(id: PaymentId) returns (r: Result<()>)
      modifies tables
      ensures Does(Worker.Release(old(tables.State()), id), r, tables.State())
    {
      if id !in tables.holds {
        return Err(NotFound);
      }
      var reservation := tables.holds[id];
      if reservation.status.HoldReleased? {
        return Ok(());
      }
      var released := reservation.(status := HoldReleased);
      tables.UpdateHold(id, released);
      r := tables.CreateEntry(ReleaseKey(id), Entry(released.account, Some(id), ReservationRelease, released.amount));
    }

    // ---------- Settlement ----------

    method SettleReservationForPayment(id: PaymentId) returns (r: Result<()>)
      modifies tables
      ensures var spec := Worker.Settle(old(tables.State()), id);
              r == Outcome(spec) && tables.State() == Commit(old(tables.State()), spec)
    {
      var saved := tables.State();
      r := Settle(id);
      if r.Err? {
        tables.Rollback(saved);
      }
    }

    method Settle(id: PaymentId) returns (r: Result<()>)
      modifies tables
      ensures Does(Worker.Settle(old(tables.State()), id), r, tables.State())
    {
      if id !in tables.holds {
        r := SettleDebitPayment(id);
        return;
      }
      var reservation := tables.holds[id];
      if reservation.status.HoldSettled? {
        return Ok(());
      }
      if !reservation.status.HoldActive? {
        return Err(BadRequest);
      }
      tables.UpdateHold(id, reservation.(status := HoldSettled));
      if id !in tables.payments || !tables.payments[id].status.Submitted? {
        return Err(BadRequest);
      }
      tables.UpdatePayment(id, tables.payments[id].(status := Settled));
      var _ :- tables.CreateEntry(SettlementKey(id), Entry(reservation.account, Some(id), Settlement, reservation.amount));
      r := tables.CreateEvent(id, PaymentSettled);
    }

    method SettleDebitPayment(id: PaymentId) returns (r: Result<()>)
      modifies tables
      ensures Does(Worker.SettleDebit(old(tables.State()), id), r, tables.State())
    {
      if id !in tables.payments || !tables.payments[id].details.direction.Debit? {
        return Err(NotFound);
      }
      var payment := tables.payments[id];
      if payment.status.Settled? {
        return Ok(());
      }
      if !payment.status.Submitted? {
        return Err(BadRequest);
      }
      var account := AccountOf(payment.details);
      if account !in tables.accounts || !tables.accounts[account].AccountActive? {
        return Err(BadRequest);
      }
      tables.UpdatePayment(id, payment.(status := Settled));
      var _ :- tables.CreateEntry(DebitPostedKey(id), Entry(account, Some(id), DebitPosted, payment.details.amount));
      r := tables.CreateEvent(id, PaymentSettled);
    }

    // ---------- Return ----------

    method ReturnSettlementForPayment(id: PaymentId, returnCode: string) returns (r: Result<()>)
      modifies tables
      ensures var spec := Worker.Return(old(tables.State()), id, returnCode);
              r == Outcome(spec) && tables.State() == Commit(old(tables.State()), spec)
    {
      var saved := tables.State();
      r := Return(id, returnCode);
      if r.Err? {
        tables.Rollback(saved);
      }
    }

    method Return(id: PaymentId, returnCode: string) returns (r: Result<()>)
      modifies tables
      ensures Does(Worker.Return(old(tables.State()), id, returnCode), r, tables.State())
    {
      if id !in tables.holds {
        r := ReturnDebitPayment(id, returnCode);
        return;
      }
      var reservation := tables.holds[id];
      if reservation.status.HoldReturned? {
        return Ok(());
      }
      if !reservation.status.HoldSettled? {
        return Err(BadRequest);
      }
      tables.UpdateHold(id, reservation.(status := HoldReturned, returnCode := Some(returnCode)));
      if id !in tables.payments {
        return Err(BadRequest);
      }
      var payment := tables.payments[id];
      if !(payment.status.Settled? || payment.status.Validated?) {
        return Err(BadRequest);
      }
      tables.UpdatePayment(id, payment.(status := Returned));
      var _ :- tables.CreateEntry(ReturnKey(id), Entry(reservation.account, Some(id), ReturnEntry, reservation.amount));
      r := tables.CreateEvent(id, PaymentReturned, Some(returnCode));
    }

    method ReturnDebitPayment(id: PaymentId, returnCode: string) returns (r: Result<()>)
      modifies tables
      ensures Does(Worker.ReturnDebit(old(tables.State()), id, returnCode), r, tables.State())
    {
      if id !in tables.payments || !tables.payments[id].details.direction.Debit? {
        return Err(NotFound);
      }
      var payment := tables.payments[id];
      if payment.status.Returned? {
        return Ok(());
      }
      if !payment.status.Settled? || DebitPostedKey(id) !in tables.ledger {
        return Err(BadRequest);
      }
      var posted := tables.ledger[DebitPostedKey(id)];
      if posted.paymentId != Some(id) || !posted.entryType.DebitPosted? || posted.amount != payment.details.amount {
        return Err(BadRequest);
      }
      tables.UpdatePayment(id, payment.(status := Returned, failureCode := Some(returnCode)));
      var _ :- tables.CreateEntry(DebitReturnKey(id), Entry(posted.account, Some(id), ReturnEntry, posted.amount));
      r := tables.CreateEvent(id, PaymentReturned, Some(returnCode));
    }

    // ---------- Validation outcomes ----------

    method TransitionFromReceived(id: PaymentId, result: Worker.Verdict) returns (r: Result<()>)
      modifies tables
      ensures var spec := Worker.TransitionFromReceived(old(tables.State()), id, result);
              r == Outcome(spec) && tables.State() == Commit(old(tables.State()), spec)
    {
      if id in tables.payments && tables.payments[id].status.Received? {
        var saved := tables.State();
        tables.UpdatePayment(id, Worker.TransitionData(tables.payments[id], result));
        r := tables.CreateEvent(id, if result.Pass? then PaymentValidated else PaymentValidationFailed);
        if r.Err? {
          tables.Rollback(saved);
        }
        return;
      }
      if id !in tables.payments {
        return Err(NotFound);
      }
      var status := tables.payments[id].status;
      r := if status.Validated? || status.ValidationFailed? then Ok(()) else Err(BadRequest);
    }

    method CompleteOutbox(key: EventKey) returns (r: Result<()>)
      modifies tables
      ensures Does(Worker.CompleteOutbox(old(tables.State()), key), r, tables.State())
    {
      if key !in tables.outbox || !tables.outbox[key].claim.status.Processing? {
        return Err(NotClaimed);
      }
      var event := tables.outbox[key];
      tables.outbox := tables.outbox[key := event.(claim := event.claim.(status := Processed))];
      r := Ok(());
    }

    method ReserveDailyUsageAndTransition(id: PaymentId, key: EventKey) returns (r: Result<()>)
      modifies tables
      ensures var spec := Worker.ReserveDailyUsageAndTransition(old(tables.State()), id, key);
              r == Outcome(spec) && tables.State() == Commit(old(tables.State()), spec)
    {
      var saved := tables.State();
      r := ReserveAndTransition(id, key);
      if r.Err? {
        tables.Rollback(saved);
      }
    }

    method ReserveAndTransition(id: PaymentId, key: EventKey) returns (r: Result<()>)
      modifies tables
      ensures Does(Worker.ReserveDailyUsageAndTransition(old(tables.State()), id, key), r, tables.State())
    {
      if id !in tables.payments {
        return Err(NotFound);
      }
      var payment := tables.payments[id];
      if !payment.status.Received? {
        r := CompleteOutbox(key);
        return;
      }
      if payment.details.merchantId !in tables.merchants {
        return Err(BadRequest);
      }
      ghost var before := tables.State();
      var v, done := Fund(id);
      var _ :- done;
      var _ :- RecordVerdict(id, v, before);
      r := CompleteOutbox(key);
    }

    /** The limits are checked and, for a credit that passes, the reservation is written. */
    method Fund(id: PaymentId) returns (v: Worker.Verdict, r: Result<()>)
      requires id in tables.payments && tables.payments[id].details.merchantId in tables.merchants
      modifies tables
      ensures v == Worker.Decide(old(tables.State()), id)
      ensures Does(Funded(old(tables.State()), id, v), r, tables.State())
    {
      var payment := tables.payments[id];
      var merchant := tables.merchants[payment.details.merchantId];
      var slot := (payment.details.merchantId, BusinessDate(payment));
      var utilized := if slot in tables.usage then tables.usage[slot] else 0;
      if utilized + payment.details.amount > merchant.profile.dailyAmountLimit {
        return Worker.Fail("EXCEEDS_DAILY_AMOUNT_LIMIT"), Ok(());
      }
      if payment.details.direction.Debit? {
        return Worker.Pass, Ok(());
      }
      var account := AccountOf(payment.details);
      if account !in tables.accounts || !tables.accounts[account].AccountActive? {
        return Worker.Fail("FUNDING_ACCOUNT_UNAVAILABLE"), Ok(());
      }
      var posted := tables.PostedBalance(account);
      var reserved := tables.ActiveReservations(account);
      if posted - reserved < payment.details.amount {
        return Worker.Fail("INSUFFICIENT_FUNDS"), Ok(());
      }
      v := Worker.Pass;
      r := tables.CreateHold(id, Hold(account, payment.details.amount, HoldActive, None));
      if r.Ok? {
        r := tables.CreateEntry(ReservationKey(id), Entry(account, Some(id), ReservationEntry, payment.details.amount));
      }
    }

    /** Usage, status and lifecycle events, once the limits are decided. */
    method RecordVerdict(id: PaymentId, v: Worker.Verdict, ghost before: Db) returns (r: Result<()>)
      requires id in before.payments && Funded(before, id, v) == Ok(tables.State())
      modifies tables
      ensures Does(Worker.RecordDecision(before, id, v), r, tables.State())
    {
      var payment := tables.payments[id];
      if v.Pass? {
        tables.WriteUsage(id);
      }
      tables.UpdatePayment(id, Worker.TransitionData(payment, v));
      r := tables.CreateEvent(id, if v.Pass? then PaymentValidated else PaymentValidationFailed);
      if r.Ok? && v.Pass? && payment.details.direction.Credit? {
        r := tables.CreateEvent(id, PaymentReserved);
      }
    }
  }

  /** What `Fund` leaves behind. */
  function Funded(db: Db, id: PaymentId, v: Worker.Verdict): (r: Result<Db>)
    requires id in db.payments
    ensures r.Ok? ==> r.value.payments == db.payments
  {
    if v.Pass? && db.payments[id].details.direction.Credit? then Worker.Reserve(db, id) else Ok(db)
  }
}
