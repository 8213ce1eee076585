/** The API's engine, statement by statement, against the specification in PaymentEngine. */
module PaymentEngineService {
  import opened Store
  import opened Text
  import opened Database
  import Engine = PaymentEngine

  class Service {
    const tables: Tables

    constructor (tables: Tables)
      ensures this.tables == tables
    {
      this.tables := tables;
    }

    /** The read of `validate` and the checks on what was read: Ok(true) lets the transaction start, Ok(false) is a
        payment that has left RECEIVED. */
    method ReadAndCheck(id: PaymentId) returns (r: Result<bool>)
      ensures r == Ok(true) <==> Engine.ReadPasses(tables.State(), id)
      ensures r == Ok(false) <==> id in tables.payments && !tables.payments[id].status.Received?
      ensures r.Err? ==> Engine.Validate(tables.State(), id) == Err(r.error)
    {
      if id !in tables.payments {
        return Err(NotFound);
      }
      var payment := tables.payments[id];
      if !payment.status.Received? {
        return Ok(false);
      }
      if payment.details.merchantId !in tables.merchants {
        return Err(NotFound);
      }
      var d, merchant := payment.details, tables.merchants[payment.details.merchantId];
      if || d.amount <= 0
         || d.currency != "USD"
         || d.externalReference.None? || Trim(d.externalReference.value) == ""
         || Trim(d.receiverAccountRef) == ""
         || Trim(d.routingNumber) == ""
         || !merchant.status.Active?
         || (d.direction.Debit? && !merchant.profile.allowAchDebit)
         || (d.direction.Credit? && !merchant.profile.allowAchCredit)
         || d.amount > merchant.profile.perPaymentLimit
      {
        return Err(BadRequest);
      }
      r := Ok(true);
    }

    /** The transaction of `validate`, on whatever the tables hold by then. */
    method WriteValidated(id: PaymentId) returns (r: Result<()>)
      modifies tables
      ensures var spec := Engine.WriteValidated(old(tables.State()), id);
              r == Outcome(spec) && tables.State() == Commit(old(tables.State()), spec)
    {
      if id !in tables.payments {
        return Err(NotFound);
      }
      var saved := tables.State();
      tables.UpdatePayment(id, tables.payments[id].(status := Validated, validationCode := None, failureCode := None));
      r := tables.CreateEvent(id, PaymentValidated);
      if r.Err? {
        tables.Rollback(saved);
      }
    }

    /** `validate` when nothing comes between its read and its transaction. */
    method Validate(id: PaymentId) returns (r: Result<()>)
      modifies tables
      ensures var spec := Engine.Validate(old(tables.State()), id);
              r == Outcome(spec) && tables.State() == Commit(old(tables.State()), spec)
    {
      Engine.AtOnce(tables.State(), id);
      var starts := ReadAndCheck(id);
      if starts.Err? {
        return Err(starts.error);
      }
      if !starts.value {
        return Ok(());
      }
      r := WriteValidated(id);
    }

    method Reserve(id: PaymentId) returns (r: Result<()>)
      modifies tables
      ensures var spec := Engine.Reserve(old(tables.State()), id);
              r == Outcome(spec) && tables.State() == Commit(old(tables.State()), spec)
    {
      var saved := tables.State();
      r := ReserveStatements(id);
      if r.Err? {
        tables.Rollback(saved);
      }
    }

    method ReserveStatements(id: PaymentId) returns (r: Result<()>)
      modifies tables
      ensures Does(Engine.Reserve(old(tables.State()), id), r, tables.State())
    {
      if id !in tables.payments {
        return Err(NotFound);
      }
      var payment := tables.payments[id];
      if id in tables.holds {
        return Ok(());
      }
      if !payment.status.Validated? {
        return Err(BadRequest);
      }
      if !payment.details.direction.Credit? {
        return Ok(());
      }
      if payment.details.merchantId !in tables.merchants {
        return Err(NotFound);
      }
      var merchant := tables.merchants[payment.details.merchantId];
      var slot := (payment.details.merchantId, BusinessDate(payment));
      var utilized := if slot in tables.usage then tables.usage[slot] else 0;
      if utilized + payment.details.amount > merchant.profile.dailyAmountLimit {
        return Err(BadRequest);
      }
      var account := AccountOf(payment.details);
      if account !in tables.accounts || !tables.accounts[account].AccountActive? {
        return Err(BadRequest);
      }
      var posted := tables.PostedBalance(account);
      var active := tables.ActiveReservations(account);
      if posted - active < payment.details.amount {
        return Err(BadRequest);
      }
      tables.UpdateHold(id, Hold(account, payment.details.amount, HoldActive, None));  // no row exists yet
      var _ :- tables.CreateEntry(ReservationKey(id), Entry(account, Some(id), ReservationEntry, payment.details.amount));
      tables.WriteUsage(id);
      r := tables.CreateEvent(id, PaymentReserved);
    }

    method Settle(id: PaymentId) returns (r: Result<()>)
      modifies tables
      ensures var spec := Engine.Settle(old(tables.State()), id);
              r == Outcome(spec) && tables.State() == Commit(old(tables.State()), spec)
    {
      var saved := tables.State();
      r := SettleStatements(id);
      if r.Err? {
        tables.Rollback(saved);
      }
    }

    method SettleStatements(id: PaymentId) returns (r: Result<()>)
      modifies tables
      ensures Does(Engine.Settle(old(tables.State()), id), r, tables.State())
    {
      if id !in tables.holds {
        r := SettleDebitPayment(id);
        return;
      }
      var reservation := tables.holds[id];
      if reservation.status.HoldSettled? {
        return Ok(());
      }
      if !reservation.status.HoldActive? {
        return Err(BadRequest);
      }
      if id !in tables.payments {
        return Err(NotFound);
      }
      var payment := tables.payments[id];
      if !payment.status.Submitted? {
        return Err(BadRequest);
      }
      tables.UpdateHold(id, reservation.(status := HoldSettled));
      tables.UpdatePayment(id, payment.(status := Settled));
      var _ :- tables.CreateEntry(SettlementKey(id), Entry(reservation.account, Some(id), Settlement, reservation.amount));
      r := tables.CreateEvent(id, PaymentSettled);
    }

    method SettleDebitPayment(id: PaymentId) returns (r: Result<()>)
      modifies tables
      ensures Does(Engine.SettleDebit(old(tables.State()), id), r, tables.State())
    {
      if id !in tables.payments || !tables.payments[id].details.direction.Debit? {
        return Err(NotFound);
      }
      var payment := tables.payments[id];
      if payment.status.Settled? {
        return Ok(());
      }
      if !payment.status.Submitted? {
        return Err(BadRequest);
      }
      var account := AccountOf(payment.details);
      if account !in tables.accounts || !tables.accounts[account].AccountActive? {
        return Err(BadRequest);
      }
      tables.UpdatePayment(id, payment.(status := Settled));
      var _ :- tables.CreateEntry(DebitPostedKey(id), Entry(account, Some(id), DebitPosted, payment.details.amount));
      r := tables.CreateEvent(id, PaymentSettled);
    }

    method ReturnSettlement(id: PaymentId, returnCode: string) returns (r: Result<()>)
      modifies tables
      ensures var spec := Engine.Return(old(tables.State()), id, returnCode);
              r == Outcome(spec) && tables.State() == Commit(old(tables.State()), spec)
    {
      var saved := tables.State();
      r := ReturnStatements(id, returnCode);
      if r.Err? {
        tables.Rollback(saved);
      }
    }

    method ReturnStatements(id: PaymentId, returnCode: string) returns (r: Result<()>)
      modifies tables
      ensures Does(Engine.Return(old(tables.State()), id, returnCode), r, tables.State())
    {
      if id !in tables.holds {
        r := ReturnDebitPayment(id, returnCode);
        return;
      }
      var reservation := tables.holds[id];
      if reservation.status.HoldReturned? {
        return Ok(());
      }
      if !reservation.status.HoldSettled? {
        return Err(BadRequest);
      }
      if id !in tables.payments {
        return Err(NotFound);
      }
      tables.UpdateHold(id, reservation.(status := HoldReturned, returnCode := Some(returnCode)));
      tables.UpdatePayment(id, tables.payments[id].(status := Returned));
      var _ :- tables.CreateEntry(ReturnKey(id), Entry(reservation.account, Some(id), ReturnEntry, reservation.amount));
      r := tables.CreateEvent(id, PaymentReturned, Some(returnCode));
    }

    method ReturnDebitPayment(id: PaymentId, returnCode: string) returns (r: Result<()>)
      modifies tables
      ensures Does(Engine.ReturnDebit(old(tables.State()), id, returnCode), r, tables.State())
    {
      if id !in tables.payments || !tables.payments[id].details.direction.Debit? {
        return Err(NotFound);
      }
      var payment := tables.payments[id];
      if payment.status.Returned? {
        return Ok(());
      }
      if !payment.status.Settled? || DebitPostedKey(id) !in tables.ledger {
        return Err(BadRequest);
      }
      var posted := tables.ledger[DebitPostedKey(id)];
      if posted.paymentId != Some(id) || !posted.entryType.DebitPosted? || posted.amount != payment.details.amount {
        return Err(BadRequest);
      }
      tables.UpdatePayment(id, payment.(status := Returned, failureCode := Some(returnCode)));
      var _ :- tables.CreateEntry(DebitReturnKey(id), Entry(posted.account, Some(id), ReturnEntry, posted.amount));
      r := tables.CreateEvent(id, PaymentReturned, Some(returnCode));
    }
  }
}
