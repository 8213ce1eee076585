/** Every effect keeps the tables mirroring each other. */
module Mirroring {
  import opened Store
  import opened OutboxProtocol
  import opened Effects
  import opened Exports
  import Creation

  lemma ToVerdictMirrors(db: Db, id: PaymentId, code: Option<string>)
    requires Mirrored(db) && id in db.payments && db.payments[id].status.Received?
    ensures Mirrored(ToVerdict(db, id, code))
  {
    var d := ToVerdict(db, id, code);
    SliceOf(db, id);
    forall x ensures SliceOk(x, d.payments, d.holds, d.ledger, d.outbox.Keys) {
      SliceOf(db, x);
    }
  }

  lemma HeldMirrors(db: Db, id: PaymentId)
    requires Mirrored(db) && id in db.payments && id !in db.holds
    requires db.payments[id].status.Validated? && db.payments[id].details.direction.Credit?
    ensures Mirrored(Held(db, id))
  {
    var d := Held(db, id);
    SliceOf(db, id);
    forall x ensures SliceOk(x, d.payments, d.holds, d.ledger, d.outbox.Keys) {
      SliceOf(db, x);
    }
  }

  lemma ReleasedMirrors(db: Db, id: PaymentId)
    requires Mirrored(db) && id in db.payments && id in db.holds && !db.holds[id].status.HoldReleased?
    ensures Mirrored(Released(db, id))
  {
    var d := Released(db, id);
    SliceOf(db, id);
    forall x ensures SliceOk(x, d.payments, d.holds, d.ledger, d.outbox.Keys) {
      SliceOf(db, x);
    }
  }

  lemma CreditSettledMirrors(db: Db, id: PaymentId)
    requires Mirrored(db) && id in db.payments && id in db.holds
    requires db.holds[id].status.HoldActive? && db.payments[id].status.Submitted?
    ensures Mirrored(CreditSettled(db, id))
  {
    var d := CreditSettled(db, id);
    SliceOf(db, id);
    forall x ensures SliceOk(x, d.payments, d.holds, d.ledger, d.outbox.Keys) {
      SliceOf(db, x);
    }
  }

  lemma DebitSettledMirrors(db: Db, id: PaymentId)
    requires Mirrored(db) && id in db.payments
    requires db.payments[id].details.direction.Debit? && db.payments[id].status.Submitted?
    ensures Mirrored(DebitSettled(db, id))
  {
    var d := DebitSettled(db, id);
    SliceOf(db, id);
    forall x ensures SliceOk(x, d.payments, d.holds, d.ledger, d.outbox.Keys) {
      SliceOf(db, x);
    }
  }

  lemma CreditReturnedMirrors(db: Db, id: PaymentId, returnCode: string)
    requires Mirrored(db) && id in db.payments && id in db.holds && db.holds[id].status.HoldSettled?
    ensures Mirrored(CreditReturned(db, id, returnCode))
  {
    var d := CreditReturned(db, id, returnCode);
    SliceOf(db, id);
    forall x ensures SliceOk(x, d.payments, d.holds, d.ledger, d.outbox.Keys) {
      SliceOf(db, x);
    }
  }

  lemma DebitReturnedMirrors(db: Db, id: PaymentId, returnCode: string)
    requires Mirrored(db) && id in db.payments
    requires db.payments[id].details.direction.Debit? && db.payments[id].status.Settled?
    ensures Mirrored(DebitReturned(db, id, returnCode))
  {
    var d := DebitReturned(db, id, returnCode);
    SliceOf(db, id);
    forall x ensures SliceOk(x, d.payments, d.holds, d.ledger, d.outbox.Keys) {
      SliceOf(db, x);
    }
  }

  lemma SubmittedKeys(ps: Exports.Payments, ids: set<PaymentId>, k: EventKey)
    requires ids <= ps.Keys
    ensures k in SubmittedEvents(ps, ids) <==> k.Lifecycle? && k.eventType.PaymentSubmitted? && k.id in ids
  {
    if k.Lifecycle? && k.eventType.PaymentSubmitted? && k.id in ids {
      assert k == Lifecycle(k.id, PaymentSubmitted);
    }
  }

  lemma SubmitMirrors(db: Db, ids: set<PaymentId>, m: MerchantId, day: Day)
    requires Mirrored(db) && ids <= db.payments.Keys && CanRender(db.payments, db.merchants, ids)
    requires forall id | id in ids :: db.payments[id].status.Validated?
    ensures Mirrored(Submit(db, ids, m, day))
  {
    var d := Submit(db, ids, m, day);
    var ps := MarkSubmitted(db.payments, ids, |db.files|);
    var events := db.outbox.Keys + SubmittedEvents(ps, ids).Keys;
    assert d.outbox.Keys == events;
    forall x ensures SliceOk(x, ps, db.holds, db.ledger, events) {
      SliceOf(db, x);
      forall t ensures Lifecycle(x, t) in events <==>
          Lifecycle(x, t) in db.outbox.Keys || (t.PaymentSubmitted? && x in ids) {
        SubmittedKeys(ps, ids, Lifecycle(x, t));
      }
      SubmittedSlice(x, db.payments, ps, ids, |db.files|, db.holds, db.ledger, db.outbox.Keys, events);
    }
  }

  lemma SubmittedSlice(x: PaymentId, ps: Exports.Payments, qs: Exports.Payments, ids: set<PaymentId>, file: nat, hs: Holds,
                       l: Ledger, before: set<EventKey>, after: set<EventKey>)
    requires SliceOk(x, ps, hs, l, before) && ids <= ps.Keys && qs == MarkSubmitted(ps, ids, file)
    requires x in ids ==> ps[x].status.Validated?
    requires forall t :: Lifecycle(x, t) in after <==> Lifecycle(x, t) in before || (t.PaymentSubmitted? && x in ids)
    ensures SliceOk(x, qs, hs, l, after)
  {
  }

  /** A new payment starts without any trace. */
  function Inserted(db: Db, details: Details, key: string, id: PaymentId, now: int): Db {
    var p := Payment(details, Creation.StoredKey(details.merchantId, key), now, Received, None, None, None);
    var slot := (details.merchantId, key);
    Emit(db.(payments := db.payments[id := p],
             idempotency := db.idempotency[slot := IdempotencyRecord(id, details)]), id, PaymentReceived)
  }

  lemma InsertedMirrors(db: Db, details: Details, key: string, id: PaymentId, now: int)
    requires Mirrored(db) && id !in db.payments && details.amount > 0
    ensures Mirrored(Inserted(db, details, key, id, now))
  {
    var d := Inserted(db, details, key, id, now);
    SliceOf(db, id);
    forall x ensures SliceOk(x, d.payments, d.holds, d.ledger, d.outbox.Keys) {
      SliceOf(db, x);
    }
  }

  lemma FundingMirrors(db: Db, a: AccountId, e: Entry)
    requires Mirrored(db)
    ensures Mirrored(Post(db, DemoFundingKey(a), e))
  {
    var d := Post(db, DemoFundingKey(a), e);
    forall x ensures SliceOk(x, d.payments, d.holds, d.ledger, d.outbox.Keys) {
      SliceOf(db, x);
    }
  }

  lemma TestEventMirrors(db: Db, d: Db, e: EndpointId, sentAt: int)
    requires Mirrored(db)
    requires d.payments == db.payments && d.holds == db.holds && d.ledger == db.ledger
    requires d.outbox.Keys == db.outbox.Keys + {WebhookTest(e, sentAt)}
    ensures Mirrored(d)
  {
    forall x ensures SliceOk(x, d.payments, d.holds, d.ledger, d.outbox.Keys) {
      SliceOf(db, x);
    }
  }

  lemma StepRowMirrors(db: Db, key: EventKey, step: RowStep, maxAttempts: nat)
    requires key in db.outbox
    ensures StepRow(db, key, step, maxAttempts).outbox.Keys == db.outbox.Keys
    ensures Mirrored(db) ==> Mirrored(StepRow(db, key, step, maxAttempts))
  {
  }
}
