/** The API's payment creation, statement by statement. */
module PaymentsService {
  import opened Text
  import opened Store
  import opened Database
  import opened Creation
  import opened Idempotency

  class PaymentsRepository {
    const tables: Tables

    constructor (tables: Tables)
      ensures this.tables == tables
    {
      this.tables := tables;
    }

    /** `createWithOutboxAndIdempotency`: three inserts, or none. */
    method CreateWithOutboxAndIdempotency(details: Details, key: string, id: PaymentId, now: int)
      returns (r: Result<()>)
      modifies tables
      ensures var spec := Insert(old(tables.State()), details, key, id, now);
              r == Outcome(spec) && tables.State() == Commit(old(tables.State()), spec)
    {
      var saved := tables.State();
      r := Inserts(details, key, id, now);
      if r.Err? {
        tables.Rollback(saved);
      }
    }

    method Inserts(details: Details, key: string, id: PaymentId, now: int) returns (r: Result<()>)
      modifies tables
      ensures Does(Insert(old(tables.State()), details, key, id, now), r, tables.State())
    {
      var storedKey := StoredKey(details.merchantId, key);
      if id in tables.payments || KeyTaken(tables.payments, storedKey) {
        return Err(UniqueViolation);
      }
      tables.payments := tables.payments[id := Payment(details, storedKey, now, Received, None, None, None)];
      var _ :- tables.CreateEvent(id, PaymentReceived);
      var slot := (details.merchantId, key);
      if slot in tables.idempotency {
        return Err(UniqueViolation);
      }
      tables.idempotency := tables.idempotency[slot := IdempotencyRecord(id, details)];
      r := Ok(());
    }
  }

  /** The request names the merchant that sends it. */
  predicate OwnCode(db: Db, call: Call) {
    call.caller in db.merchants && db.merchants[call.caller].profile.merchantCode == call.request.merchantCode
  }

  class Service {
    const payments: PaymentsRepository

    constructor (payments: PaymentsRepository)
      ensures this.payments == payments
    {
      this.payments := payments;
    }

    /** `create`: a unique-key collision is answered from the record of the key. */
    method Create(call: Call, id: PaymentId, now: int) returns (reply: Reply)
      modifies payments.tables
      ensures payments.tables.State() ==
                Commit(old(payments.tables.State()), CreateFor(old(payments.tables.State()), call, id, now))
      ensures reply == match AfterAttempt(CreateFor(old(payments.tables.State()), call, id, now), id)
                       case Answered(r) => r
                       case Waiting => AfterRead(old(payments.tables.State()), call)
      ensures reply.Created? ==>
                && reply.id == id && id !in old(payments.tables.payments) && id in payments.tables.payments
                && Stores(payments.tables.payments[id], call.request, call.clientKey, call.caller, now)
      ensures !OwnCode(old(payments.tables.State()), call) ==>
                reply.Rejected? && payments.tables.State() == old(payments.tables.State())
    {
      var tables := payments.tables;
      ghost var db := tables.State();
      var key := Trim(call.clientKey);
      if !WellFormed(call.request) || key == "" {
        return Rejected(BadRequest);
      }
      if call.caller !in tables.merchants
         || tables.merchants[call.caller].profile.merchantCode != call.request.merchantCode
      {
        return Rejected(NotFound);
      }
      var r := payments.CreateWithOutboxAndIdempotency(call.Fingerprint(), key, id, now);
      if r.Ok? {
        CreationStores(db, call.request, call.clientKey, call.caller, id, now);
        return Created(id);
      }
      if r.error != UniqueViolation {
        return Rejected(r.error);
      }
      reply := HandleIdempotencyConflict(call);
    }

    /** `handleIdempotencyConflict`. */
    method HandleIdempotencyConflict(call: Call) returns (reply: Reply)
      ensures reply == AfterRead(payments.tables.State(), call)
    {
      var tables := payments.tables;
      if call.Slot() !in tables.idempotency {
        return Internal;
      }
      var record := tables.idempotency[call.Slot()];
      if record.fingerprint != call.Fingerprint() {
        return Conflict;
      }
      reply := Replayed(record.paymentId);
    }
  }
}
