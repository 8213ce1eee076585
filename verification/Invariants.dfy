/** The system invariant and its preservation by every committed effect. */
module Invariants {
  import opened Store
  import opened OutboxProtocol
  import opened Funding
  import opened Effects
  import opened Mirroring
  import opened Balances
  import opened Metering
  import opened Rendering
  import opened Records
  import Exports

  /** Every reservation was charged to the daily usage. */
  ghost predicate HoldsCharged(db: Db) {
    forall id | id in db.holds :: id in db.charges
  }

  ghost predicate PapersOk(db: Db) {
    FilesOk(db.files, db.payments, db.merchants) && Recorded(db.idempotency, db.payments, db.merchants)
  }

  ghost predicate BooksOk(db: Db) {
    Metered(db) && HoldsCharged(db) && PapersOk(db)
  }

  ghost predicate RowsOk(db: Db, maxAttempts: nat) {
    Claimed(db.outbox, maxAttempts) && Covered(db.outbox, db.deliveries)
  }

  ghost predicate Inv(db: Db, maxAttempts: nat) {
    Mirrored(db) && Balanced(db) && BooksOk(db) && RowsOk(db, maxAttempts)
  }

  // ---------- Effects on existing payments ----------

  ghost predicate SamePayments(ps: Effects.Payments, qs: Effects.Payments) {
    && ps.Keys == qs.Keys
    && forall id | id in ps ::
         && qs[id].details == ps[id].details && qs[id].idempotencyKey == ps[id].idempotencyKey
         && qs[id].createdAt == ps[id].createdAt && qs[id].file == ps[id].file
         && (qs[id].status.Received? ==> ps[id].status.Received?)
         && (qs[id].status.ValidationFailed? ==> ps[id].status.Received? || ps[id].status.ValidationFailed?)
  }

  /** An effect that creates no payment, merchant, file or record. */
  ghost predicate CreatesNothing(db: Db, d: Db) {
    && SamePayments(db.payments, d.payments) && d.merchants == db.merchants
    && d.files == db.files && d.idempotency == db.idempotency
  }

  /** ... and leaves the usage alone as well. */
  ghost predicate Touches(db: Db, d: Db) {
    && CreatesNothing(db, d) && d.holds.Keys == db.holds.Keys
    && d.usage == db.usage && d.charges == db.charges
  }

  lemma CreatingNothingKeepsPapers(db: Db, d: Db)
    requires PapersOk(db) && CreatesNothing(db, d)
    ensures PapersOk(d)
  {
    SettlementsKeepFiles(db.files, db.payments, d.payments, db.merchants, d.merchants);
    RecordsAreStable(db.idempotency, db.payments, d.payments, db.merchants, d.merchants);
  }

  lemma TouchKeepsBooks(db: Db, d: Db)
    requires BooksOk(db) && Touches(db, d)
    ensures BooksOk(d)
  {
    UnchargedEffectMeters(db, d);
    CreatingNothingKeepsPapers(db, d);
  }

  lemma EmitKeepsRows(db: Db, d: Db, key: EventKey, row: OutboxRow, maxAttempts: nat)
    requires RowsOk(db, maxAttempts) && maxAttempts >= 1 && key.Lifecycle? && row.claim == FRESH && row.covered.None?
    requires d.outbox == db.outbox[key := row] && d.deliveries == db.deliveries
    ensures RowsOk(d, maxAttempts)
  {
    assert Stale(FRESH, maxAttempts) == {};
    forall k | k in d.outbox ensures RowCovered(k, d.outbox[k], d.deliveries) {
      if k != key {
        assert RowCovered(k, db.outbox[k], db.deliveries);
      }
    }
  }

  // Each effect on an existing payment leaves usage, files, records and merchants alone.

  lemma ToVerdictTouches(db: Db, id: PaymentId, code: Option<string>)
    requires id in db.payments && db.payments[id].status.Received?
    ensures Touches(db, ToVerdict(db, id, code))
  {
  }

  lemma CreditSettledTouches(db: Db, id: PaymentId)
    requires id in db.payments && id in db.holds
    ensures Touches(db, CreditSettled(db, id))
  {
  }

  lemma DebitSettledTouches(db: Db, id: PaymentId)
    requires id in db.payments
    ensures Touches(db, DebitSettled(db, id))
  {
  }

  lemma CreditReturnedTouches(db: Db, id: PaymentId, returnCode: string)
    requires id in db.payments && id in db.holds
    ensures Touches(db, CreditReturned(db, id, returnCode))
  {
  }

  lemma DebitReturnedTouches(db: Db, id: PaymentId, returnCode: string)
    requires id in db.payments
    ensures Touches(db, DebitReturned(db, id, returnCode))
  {
  }

  lemma ToVerdictKeepsInv(db: Db, id: PaymentId, code: Option<string>, maxAttempts: nat)
    requires Inv(db, maxAttempts) && maxAttempts >= 1 && id in db.payments && db.payments[id].status.Received?
    ensures Inv(ToVerdict(db, id, code), maxAttempts)
  {
    var d := ToVerdict(db, id, code);
    var t := if code.None? then PaymentValidated else PaymentValidationFailed;
    ToVerdictMirrors(db, id, code);
    ToVerdictBalances(db, id, code);
    ToVerdictTouches(db, id, code);
    TouchKeepsBooks(db, d);
    EmitKeepsRows(db, d, Lifecycle(id, t), NewEvent(d.payments[id], None), maxAttempts);
  }

  lemma ReleasedKeepsInv(db: Db, id: PaymentId, maxAttempts: nat)
    requires Inv(db, maxAttempts) && id in db.payments && id in db.holds && !db.holds[id].status.HoldReleased?
    ensures Inv(Released(db, id), maxAttempts)
  {
    ReleasedMirrors(db, id);
    ReleasedBalances(db, id);
    TouchKeepsBooks(db, Released(db, id));
  }

  lemma CreditSettledKeepsInv(db: Db, id: PaymentId, maxAttempts: nat)
    requires Inv(db, maxAttempts) && maxAttempts >= 1 && id in db.payments && id in db.holds
    requires db.holds[id].status.HoldActive? && db.payments[id].status.Submitted?
    ensures Inv(CreditSettled(db, id), maxAttempts)
  {
    var d := CreditSettled(db, id);
    CreditSettledMirrors(db, id);
    CreditSettledBalances(db, id);
    CreditSettledTouches(db, id);
    TouchKeepsBooks(db, d);
    EmitKeepsRows(db, d, Lifecycle(id, PaymentSettled), NewEvent(d.payments[id], None), maxAttempts);
  }

  lemma DebitSettledKeepsInv(db: Db, id: PaymentId, maxAttempts: nat)
    requires Inv(db, maxAttempts) && maxAttempts >= 1 && id in db.payments
    requires db.payments[id].details.direction.Debit? && db.payments[id].status.Submitted?
    ensures Inv(DebitSettled(db, id), maxAttempts)
  {
    var d := DebitSettled(db, id);
    DebitSettledMirrors(db, id);
    DebitSettledBalances(db, id);
    DebitSettledTouches(db, id);
    TouchKeepsBooks(db, d);
    EmitKeepsRows(db, d, Lifecycle(id, PaymentSettled), NewEvent(d.payments[id], None), maxAttempts);
  }

  lemma CreditReturnedKeepsInv(db: Db, id: PaymentId, returnCode: string, maxAttempts: nat)
    requires Inv(db, maxAttempts) && maxAttempts >= 1 && id in db.payments && id in db.holds
    requires db.holds[id].status.HoldSettled?
    ensures Inv(CreditReturned(db, id, returnCode), maxAttempts)
  {
    var d := CreditReturned(db, id, returnCode);
    CreditReturnedMirrors(db, id, returnCode);
    CreditReturnedBalances(db, id, returnCode);
    CreditReturnedTouches(db, id, returnCode);
    TouchKeepsBooks(db, d);
    EmitKeepsRows(db, d, Lifecycle(id, PaymentReturned), NewEvent(d.payments[id], Some(returnCode)), maxAttempts);
  }

  lemma DebitReturnedKeepsInv(db: Db, id: PaymentId, returnCode: string, maxAttempts: nat)
    requires Inv(db, maxAttempts) && maxAttempts >= 1 && id in db.payments
    requires db.payments[id].details.direction.Debit? && db.payments[id].status.Settled?
    ensures Inv(DebitReturned(db, id, returnCode), maxAttempts)
  {
    var d := DebitReturned(db, id, returnCode);
    DebitReturnedMirrors(db, id, returnCode);
    DebitReturnedBalances(db, id, returnCode);
    DebitReturnedTouches(db, id, returnCode);
    TouchKeepsBooks(db, d);
    EmitKeepsRows(db, d, Lifecycle(id, PaymentReturned), NewEvent(d.payments[id], Some(returnCode)), maxAttempts);
  }

  // ---------- Admission ----------

  lemma AdmittedKeepsBooks(db: Db, id: PaymentId)
    requires BooksOk(db) && id in db.payments && id !in db.holds && FitsLimit(db, id)
    requires db.payments[id].status.Validated? && db.payments[id].details.direction.Credit?
    ensures BooksOk(Admitted(db, id))
  {
    var d := Admitted(db, id);
    ChargeMeters(db, d, id);
    forall x | x in d.holds ensures x in d.charges {
      if x != id {
        assert x in db.charges;
      }
    }
  }

  lemma AdmittedKeepsInv(db: Db, id: PaymentId, maxAttempts: nat)
    requires Inv(db, maxAttempts) && maxAttempts >= 1 && id in db.payments && id !in db.holds && FitsLimit(db, id)
    requires db.payments[id].status.Validated? && db.payments[id].details.direction.Credit?
    requires Available(db, AccountOf(db.payments[id].details)) >= db.payments[id].details.amount
    ensures Inv(Admitted(db, id), maxAttempts)
  {
    var u := AddUsage(db, id);
    var d := Admitted(db, id);
    HeldMirrors(u, id);
    HeldBalances(u, id);
    AdmittedKeepsBooks(db, id);
    EmitKeepsRows(db, d, Lifecycle(id, PaymentReserved), NewEvent(d.payments[id], None), maxAttempts);
  }

  lemma DebitAdmittedIsMetered(db: Db, id: PaymentId)
    requires Metered(db) && id in db.payments && FitsLimit(db, id)
    requires db.payments[id].status.Received? && db.payments[id].details.direction.Debit?
    ensures Metered(DebitAdmitted(db, id))
  {
    ChargeMeters(db, DebitAdmitted(db, id), id);
  }

  lemma DebitAdmittedCreatesNothing(db: Db, id: PaymentId)
    requires id in db.payments && db.payments[id].status.Received?
    ensures CreatesNothing(db, DebitAdmitted(db, id))
    ensures var d := DebitAdmitted(db, id); d.holds == db.holds && d.charges == db.charges + [id]
  {
  }

  lemma DebitAdmittedKeepsBooks(db: Db, id: PaymentId)
    requires BooksOk(db) && id in db.payments && FitsLimit(db, id)
    requires db.payments[id].status.Received? && db.payments[id].details.direction.Debit?
    ensures BooksOk(DebitAdmitted(db, id))
  {
    DebitAdmittedIsMetered(db, id);
    DebitAdmittedCreatesNothing(db, id);
    CreatingNothingKeepsPapers(db, DebitAdmitted(db, id));
  }

  lemma DebitAdmittedKeepsInv(db: Db, id: PaymentId, maxAttempts: nat)
    requires Inv(db, maxAttempts) && maxAttempts >= 1 && id in db.payments && FitsLimit(db, id)
    requires db.payments[id].status.Received? && db.payments[id].details.direction.Debit?
    ensures Inv(DebitAdmitted(db, id), maxAttempts)
  {
    ToVerdictKeepsInv(db, id, None, maxAttempts);
    DebitAdmittedKeepsBooks(db, id);
  }

  // ---------- Creation, funding and export ----------

  lemma InsertedKeepsPapers(db: Db, details: Details, key: string, id: PaymentId, now: int)
    requires PapersOk(db) && id !in db.payments
    requires details.merchantId in db.merchants && NineDigits(details.routingNumber)
    requires (details.merchantId, key) !in db.idempotency
    ensures PapersOk(Inserted(db, details, key, id, now))
  {
    var d := Inserted(db, details, key, id, now);
    NewPaymentKeepsFiles(db.files, db.payments, db.merchants, id, d.payments[id]);
    InsertKeepsRecords(db.idempotency, db.payments, db.merchants, details, key, id, d.payments[id]);
  }

  lemma InsertedKeepsUsage(db: Db, details: Details, key: string, id: PaymentId, now: int)
    requires Metered(db) && HoldsCharged(db) && id !in db.payments
    ensures Metered(Inserted(db, details, key, id, now)) && HoldsCharged(Inserted(db, details, key, id, now))
  {
    UnchargedEffectMeters(db, Inserted(db, details, key, id, now));
  }

  lemma InsertedKeepsInv(db: Db, details: Details, key: string, id: PaymentId, now: int, maxAttempts: nat)
    requires Inv(db, maxAttempts) && maxAttempts >= 1 && id !in db.payments
    requires details.amount > 0 && details.merchantId in db.merchants && NineDigits(details.routingNumber)
    requires (details.merchantId, key) !in db.idempotency
    ensures Inv(Inserted(db, details, key, id, now), maxAttempts)
  {
    var d := Inserted(db, details, key, id, now);
    InsertedMirrors(db, details, key, id, now);
    NewPaymentBalances(db, d, id, d.payments[id]);
    InsertedKeepsUsage(db, details, key, id, now);
    InsertedKeepsPapers(db, details, key, id, now);
    EmitKeepsRows(db, d, Lifecycle(id, PaymentReceived), NewEvent(d.payments[id], None), maxAttempts);
  }

  lemma FundingKeepsInv(db: Db, a: AccountId, amount: int, maxAttempts: nat)
    requires Inv(db, maxAttempts) && amount > 0 && DemoFundingKey(a) !in db.ledger
    ensures Inv(Post(db, DemoFundingKey(a), Entry(a, None, InitialCredit, amount)), maxAttempts)
  {
    FundingMirrors(db, a, Entry(a, None, InitialCredit, amount));
    FundingBalances(db, a, amount);
  }

  lemma SubmitKeepsRows(db: Db, ids: set<PaymentId>, m: MerchantId, day: Day, maxAttempts: nat)
    requires RowsOk(db, maxAttempts) && maxAttempts >= 1
    requires ids <= db.payments.Keys && Exports.CanRender(db.payments, db.merchants, ids)
    ensures RowsOk(Exports.Submit(db, ids, m, day), maxAttempts)
  {
    var d := Exports.Submit(db, ids, m, day);
    var added := Exports.SubmittedEvents(d.payments, ids);
    assert Stale(FRESH, maxAttempts) == {};
    forall k | k in d.outbox ensures RowCovered(k, d.outbox[k], d.deliveries) && Bounded(d.outbox[k].claim, maxAttempts) {
      SubmittedKeys(d.payments, ids, k);
      if k !in added {
        assert RowCovered(k, db.outbox[k], db.deliveries);
      }
    }
  }

  lemma SubmittingPersists(ps: Effects.Payments, ids: set<PaymentId>, n: nat, hs: Holds)
    ensures var qs := Exports.MarkSubmitted(ps, ids, n);
            && SameCharges(ps, qs) && SameCreations(ps, qs)
            && forall x | WasAdmitted(x, ps, hs) :: WasAdmitted(x, qs, hs)
  {
  }

  lemma SubmitKeepsUsageAndRecords(db: Db, ids: set<PaymentId>, m: MerchantId, day: Day)
    requires ids <= db.payments.Keys && Exports.CanRender(db.payments, db.merchants, ids)
    requires Metered(db) && Recorded(db.idempotency, db.payments, db.merchants)
    ensures var d := Exports.Submit(db, ids, m, day);
            Metered(d) && Recorded(d.idempotency, d.payments, d.merchants)
  {
    var d := Exports.Submit(db, ids, m, day);
    SubmittingPersists(db.payments, ids, |db.files|, db.holds);
    UnchargedEffectMeters(db, d);
    RecordsAreStable(db.idempotency, db.payments, d.payments, db.merchants, d.merchants);
  }

  lemma SubmitKeepsInv(db: Db, ids: set<PaymentId>, m: MerchantId, day: Day, maxAttempts: nat)
    requires Inv(db, maxAttempts) && maxAttempts >= 1 && ids != {}
    requires ids <= db.payments.Keys && Exports.CanRender(db.payments, db.merchants, ids)
    requires forall id | id in ids ::
               db.payments[id].status.Validated? && db.payments[id].file.None? && db.payments[id].details.merchantId == m
    ensures Inv(Exports.Submit(db, ids, m, day), maxAttempts)
  {
    SubmitMirrors(db, ids, m, day);
    SubmitBalances(db, ids, m, day);
    SubmitKeepsUsageAndRecords(db, ids, m, day);
    SubmitKeepsFiles(db, ids, m, day);
    SubmitKeepsRows(db, ids, m, day, maxAttempts);
  }

  // ---------- Outbox rows ----------

  lemma StepRowKeepsInv(db: Db, key: EventKey, step: RowStep, max: nat, maxAttempts: nat)
    requires Inv(db, maxAttempts) && maxAttempts >= 1 && key in db.outbox
    requires max == maxAttempts || step.Advance? || step.Complete?
    requires step.Advance? && step.phase.PastMaterialisation? && key.Lifecycle? ==> db.outbox[key].covered.Some?
    requires step.Complete? ==> IsReceived(key)
    ensures Inv(StepRow(db, key, step, max), maxAttempts)
  {
    var d := StepRow(db, key, step, max);
    StepRowMirrors(db, key, step, max);
    assert RowCovered(key, db.outbox[key], db.deliveries);
    StepIsCovered(key, db.outbox[key], step, max, db.deliveries);
    ApplyKeepsBounded(db.outbox[key].claim, step, maxAttempts);
    forall k | k in d.outbox ensures RowCovered(k, d.outbox[k], d.deliveries) && Bounded(d.outbox[k].claim, maxAttempts) {
      assert RowCovered(k, db.outbox[k], db.deliveries);
    }
  }
}
