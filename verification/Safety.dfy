/** The invariant holds in every state of every run. */
module Safety {
  import opened Text
  import opened Store
  import opened OutboxProtocol
  import opened Funding
  import opened Effects
  import opened Mirroring
  import opened Metering
  import opened Rendering
  import opened Records
  import opened Invariants
  import opened Agreement
  import opened System
  import Exports
  import Creation
  import Worker = WorkerLifecycle
  import Engine = PaymentEngine

  // ---------- Administration ----------

  lemma MerchantsKeepInv(db: Db, merchants: map<MerchantId, Merchant>, maxAttempts: nat)
    requires Inv(db, maxAttempts) && SameProfiles(db.merchants, merchants)
    requires forall m | m in merchants :: ColonFree(m)
    ensures Inv(db.(merchants := merchants), maxAttempts)
  {
    var d := db.(merchants := merchants);
    UnchargedEffectMeters(db, d);
    SettlementsKeepFiles(db.files, db.payments, d.payments, db.merchants, merchants);
    RecordsAreStable(db.idempotency, db.payments, d.payments, db.merchants, merchants);
  }

  lemma OtherTablesKeepInv(db: Db, d: Db, maxAttempts: nat)
    requires Inv(db, maxAttempts)
    requires d == db.(accounts := d.accounts, endpoints := d.endpoints)
    ensures Inv(d, maxAttempts)
  {
  }

  lemma ProvisionKeepsInv(db: Db, a: AccountId, amount: int, maxAttempts: nat)
    requires Inv(db, maxAttempts)
    ensures Inv(Commit(db, ProvisionTxn(db, a, amount)), maxAttempts)
  {
    var account := if a in db.accounts then db else db.(accounts := db.accounts[a := AccountActive]);
    OtherTablesKeepInv(db, account, maxAttempts);
    if amount > 0 && DemoFundingKey(a) !in account.ledger {
      FundingKeepsInv(account, a, amount, maxAttempts);
    }
  }

  lemma TestEventKeepsRows(db: Db, d: Db, e: EndpointId, sentAt: int, maxAttempts: nat)
    requires RowsOk(db, maxAttempts) && maxAttempts >= 1 && SendTestTxn(db, e, sentAt) == Ok(d)
    ensures RowsOk(d, maxAttempts)
  {
    assert Stale(FRESH, maxAttempts) == {};
    forall k | k in d.outbox ensures RowCovered(k, d.outbox[k], d.deliveries) {
      if k in db.outbox {
        assert RowCovered(k, db.outbox[k], db.deliveries);
      }
    }
  }

  lemma SendTestKeepsInv(db: Db, e: EndpointId, sentAt: int, maxAttempts: nat)
    requires Inv(db, maxAttempts) && maxAttempts >= 1
    ensures Inv(Commit(db, SendTestTxn(db, e, sentAt)), maxAttempts)
  {
    if SendTestTxn(db, e, sentAt).Ok? {
      var d := SendTestTxn(db, e, sentAt).value;
      TestEventMirrors(db, d, e, sentAt);
      TestEventKeepsRows(db, d, e, sentAt, maxAttempts);
    }
  }

  // ---------- Creation ----------

  lemma RecordsTakeKeys(db: Db, m: MerchantId, key: string)
    requires PapersOk(db) && (m, key) in db.idempotency
    ensures Creation.KeyTaken(db.payments, Creation.StoredKey(m, key))
  {
    var slot := (m, key);
    assert RecordOk(slot, db.idempotency[slot], db.payments);
    assert db.idempotency[slot].paymentId in db.payments;
  }

  lemma FreeKeysInsert(db: Db, d: Details, key: string, id: PaymentId, now: int)
    requires id !in db.payments && !Creation.KeyTaken(db.payments, Creation.StoredKey(d.merchantId, key))
    requires Lifecycle(id, PaymentReceived) !in db.outbox && (d.merchantId, key) !in db.idempotency
    ensures Creation.Insert(db, d, key, id, now) == Ok(Inserted(db, d, key, id, now))
  {
  }

  /** Whenever the stored key is free, so are the record and the event key. */
  lemma InsertIs(db: Db, d: Details, key: string, id: PaymentId, now: int)
    requires Mirrored(db) && PapersOk(db)
    ensures Creation.Insert(db, d, key, id, now) ==
              if id in db.payments || Creation.KeyTaken(db.payments, Creation.StoredKey(d.merchantId, key))
              then Err(UniqueViolation)
              else Ok(Inserted(db, d, key, id, now))
    ensures (d.merchantId, key) in db.idempotency ==>
              Creation.KeyTaken(db.payments, Creation.StoredKey(d.merchantId, key))
  {
    if (d.merchantId, key) in db.idempotency {
      RecordsTakeKeys(db, d.merchantId, key);
    }
    if id !in db.payments && !Creation.KeyTaken(db.payments, Creation.StoredKey(d.merchantId, key)) {
      SliceOf(db, id);
      FreeKeysInsert(db, d, key, id, now);
    }
  }

  lemma CreateKeepsInv(db: Db, r: Creation.Request, clientKey: string, caller: MerchantId, id: PaymentId, now: int,
                       maxAttempts: nat)
    requires Inv(db, maxAttempts) && maxAttempts >= 1
    ensures Inv(Commit(db, Creation.Create(db, r, clientKey, caller, id, now)), maxAttempts)
  {
    var key := Trim(clientKey);
    var d := Creation.Canonical(r, caller);
    var result := Creation.Create(db, r, clientKey, caller, id, now);
    if result.Ok? {
      InsertIs(db, d, key, id, now);
      InsertedKeepsInv(db, d, key, id, now, maxAttempts);
    }
  }

  // ---------- Settlement, return, release ----------

  lemma SettleKeepsInv(db: Db, id: PaymentId, maxAttempts: nat)
    requires Inv(db, maxAttempts) && maxAttempts >= 1
    ensures Inv(Commit(db, SettleEffect(db, id)), maxAttempts)
  {
    if SettleEffect(db, id).Ok? && SettleEffect(db, id).value != db {
      if id in db.holds {
        CreditSettledKeepsInv(db, id, maxAttempts);
      } else {
        DebitSettledKeepsInv(db, id, maxAttempts);
      }
    }
  }

  lemma ReturnKeepsInv(db: Db, id: PaymentId, returnCode: string, maxAttempts: nat)
    requires Inv(db, maxAttempts) && maxAttempts >= 1
    ensures Inv(Commit(db, ReturnEffect(db, id, returnCode)), maxAttempts)
  {
    if ReturnEffect(db, id, returnCode).Ok? && ReturnEffect(db, id, returnCode).value != db {
      if id in db.holds {
        CreditReturnedKeepsInv(db, id, returnCode, maxAttempts);
      } else {
        DebitReturnedKeepsInv(db, id, returnCode, maxAttempts);
      }
    }
  }

  lemma ReleaseKeepsInv(db: Db, id: PaymentId, maxAttempts: nat)
    requires Inv(db, maxAttempts)
    ensures Inv(Commit(db, Worker.Release(db, id)), maxAttempts)
  {
    WorkerReleaseIs(db, id);
    SliceOf(db, id);
    if id in db.holds && !db.holds[id].status.HoldReleased? {
      ReleasedKeepsInv(db, id, maxAttempts);
    }
  }

  // ---------- The API's validate and reserve ----------

  lemma MerchantIsKnown(db: Db, id: PaymentId)
    requires PapersOk(db) && id in db.payments
    ensures db.payments[id].details.merchantId in db.merchants
    ensures NineDigits(db.payments[id].details.routingNumber)
  {
  }

  lemma EngineValidateKeepsInv(db: Db, id: PaymentId, maxAttempts: nat)
    requires Inv(db, maxAttempts) && maxAttempts >= 1
    ensures Inv(Commit(db, Engine.Validate(db, id)), maxAttempts)
  {
    if id in db.payments {
      MerchantIsKnown(db, id);
      EngineValidateIs(db, id);
      if db.payments[id].status.Received? {
        ToVerdictKeepsInv(db, id, None, maxAttempts);
      }
    }
  }

  lemma EngineReserveKeepsInv(db: Db, id: PaymentId, maxAttempts: nat)
    requires Inv(db, maxAttempts) && maxAttempts >= 1
    ensures Inv(Commit(db, Engine.Reserve(db, id)), maxAttempts)
  {
    if id in db.payments && id !in db.holds && db.payments[id].status.Validated?
       && db.payments[id].details.direction.Credit? {
      MerchantIsKnown(db, id);
      EngineReserveIs(db, id);
      if Reservable(db, id) {
        AdmittedKeepsInv(db, id, maxAttempts);
      }
    }
  }

  // ---------- Export ----------

  lemma GenerateIs(db: Db, day: Day)
    requires Mirrored(db) && PapersOk(db) && Exports.Eligible(db.payments) != {}
    ensures var ids := Exports.NextBatch(db.payments);
            && ids <= db.payments.Keys && Exports.CanRender(db.payments, db.merchants, ids)
            && Exports.Generate(db, day) == Ok(Exports.Submit(db, ids, Exports.NextMerchant(db.payments), day))
  {
    Exports.NextBatchIsEligible(db.payments);
    forall id | id in Exports.NextBatch(db.payments)
      ensures Exports.HasItem(db.payments, db.merchants, id) && Exports.RoutingIsNumeric(db.payments[id].details)
      ensures Lifecycle(id, PaymentSubmitted) !in db.outbox
    {
      SliceOf(db, id);
      MerchantIsKnown(db, id);
    }
  }

  lemma GenerateKeepsInv(db: Db, day: Day, maxAttempts: nat)
    requires Inv(db, maxAttempts) && maxAttempts >= 1
    ensures Inv(Commit(db, Exports.Generate(db, day)), maxAttempts)
  {
    if Exports.Eligible(db.payments) != {} {
      GenerateIs(db, day);
      Exports.NextBatchIsEligible(db.payments);
      SubmitKeepsInv(db, Exports.NextBatch(db.payments), Exports.NextMerchant(db.payments), day, maxAttempts);
    }
  }

  // ---------- The worker's handler ----------

  lemma CompleteKeepsInv(db: Db, key: EventKey, maxAttempts: nat)
    requires Inv(db, maxAttempts) && maxAttempts >= 1 && IsReceived(key)
    ensures Worker.CompleteOutbox(db, key).Ok? ==> Inv(Worker.CompleteOutbox(db, key).value, maxAttempts)
  {
    if Worker.CompleteOutbox(db, key).Ok? {
      StepRowKeepsInv(db, key, Complete, 0, maxAttempts);
    }
  }

  lemma VerdictIsAdmissible(db: Db, id: PaymentId)
    requires Untouched(db, id) && Worker.Decide(db, id).Pass? && db.payments[id].details.direction.Credit?
    ensures var d := ToVerdict(db, id, None);
            && id in d.payments && id !in d.holds && FitsLimit(d, id)
            && d.payments[id].status.Validated? && d.payments[id].details.direction.Credit?
            && Available(d, AccountOf(d.payments[id].details)) >= d.payments[id].details.amount
  {
  }

  lemma CreditAdmissionKeepsInv(db: Db, id: PaymentId, maxAttempts: nat)
    requires Inv(db, maxAttempts) && maxAttempts >= 1 && Untouched(db, id) && Worker.Decide(db, id).Pass?
    requires db.payments[id].details.direction.Credit?
    ensures Inv(Admitted(ToVerdict(db, id, None), id), maxAttempts)
  {
    ToVerdictKeepsInv(db, id, None, maxAttempts);
    VerdictIsAdmissible(db, id);
    AdmittedKeepsInv(ToVerdict(db, id, None), id, maxAttempts);
  }

  lemma ReserveKeepsInv(db: Db, id: PaymentId, key: EventKey, maxAttempts: nat)
    requires Inv(db, maxAttempts) && maxAttempts >= 1 && IsReceived(key)
    ensures var r := Worker.ReserveDailyUsageAndTransition(db, id, key); r.Ok? ==> Inv(r.value, maxAttempts)
  {
    if id !in db.payments {
    } else if !db.payments[id].status.Received? {
      CompleteKeepsInv(db, key, maxAttempts);
    } else {
      MerchantIsKnown(db, id);
      ReceivedIsUntouched(db, id);
      if Worker.Decide(db, id).Fail? {
        WorkerRejects(db, id, key);
        ToVerdictKeepsInv(db, id, Some(Worker.Decide(db, id).code), maxAttempts);
        CompleteKeepsInv(ToVerdict(db, id, Some(Worker.Decide(db, id).code)), key, maxAttempts);
      } else if db.payments[id].details.direction.Debit? {
        WorkerAdmitsDebit(db, id, key);
        DebitAdmittedKeepsInv(db, id, maxAttempts);
        CompleteKeepsInv(DebitAdmitted(db, id), key, maxAttempts);
      } else {
        WorkerAdmitsCredit(db, id, key);
        CreditAdmissionKeepsInv(db, id, maxAttempts);
        CompleteKeepsInv(Admitted(ToVerdict(db, id, None), id), key, maxAttempts);
      }
    }
  }

  lemma TransitionKeepsInv(db: Db, id: PaymentId, v: Worker.Verdict, maxAttempts: nat)
    requires Inv(db, maxAttempts) && maxAttempts >= 1
    ensures var r := Worker.TransitionFromReceived(db, id, v); r.Ok? ==> Inv(r.value, maxAttempts)
  {
    if id in db.payments && db.payments[id].status.Received? {
      TransitionIs(db, id, v);
      ToVerdictKeepsInv(db, id, if v.Pass? then None else Some(v.code), maxAttempts);
    }
  }

  lemma ValidateKeepsInv(db: Db, key: EventKey, t: nat, seen: MerchantStatus, maxAttempts: nat)
    requires Inv(db, maxAttempts) && maxAttempts >= 1
    ensures Inv(Commit(db, ValidateTxn(db, key, t, seen)), maxAttempts)
  {
    var r := ValidateTxn(db, key, t, seen);
    if r.Ok? {
      var v := SeenVerdict(db, key.id, seen);
      var d := ValidationOutcome(db, key, v);
      if v.Pass? {
        ReserveKeepsInv(db, key.id, key, maxAttempts);
      } else {
        TransitionKeepsInv(db, key.id, v, maxAttempts);
      }
      StepRowKeepsInv(d.value, key, Advance(t, PastValidation), 0, maxAttempts);
    }
  }

  lemma MaterialiseKeepsInv(db: Db, key: EventKey, t: nat, maxAttempts: nat)
    requires Inv(db, maxAttempts) && maxAttempts >= 1
    ensures Inv(Commit(db, MaterialiseTxn(db, key, t)), maxAttempts)
  {
    var r := MaterialiseTxn(db, key, t);
    if r.Ok? && key.WebhookTest? {
      StepRowKeepsInv(db, key, Advance(t, PastMaterialisation), 0, maxAttempts);
    } else if r.Ok? {
      DeliveringKeepsInv(db, key, ActiveEndpoints(db, db.outbox[key].payload.merchantId), maxAttempts);
      StepRowKeepsInv(Delivered(db, key, ActiveEndpoints(db, db.outbox[key].payload.merchantId)), key,
                      Advance(t, PastMaterialisation), 0, maxAttempts);
    }
  }

  lemma DeliveringKeepsInv(db: Db, key: EventKey, active: set<EndpointId>, maxAttempts: nat)
    requires Inv(db, maxAttempts) && key.Lifecycle? && key in db.outbox
    ensures Inv(Delivered(db, key, active), maxAttempts)
    ensures Delivered(db, key, active).outbox[key].covered == Some(active)
  {
    var d := Delivered(db, key, active);
    assert d.outbox.Keys == db.outbox.Keys;
    forall e | e in active ensures (key, e) in d.deliveries {
      assert (key, e) in db.deliveries || (key, e) in NewDeliveries(db, key, active);
    }
    forall k | k in d.outbox ensures RowCovered(k, d.outbox[k], d.deliveries) {
      assert RowCovered(k, db.outbox[k], db.deliveries);
    }
  }

  // ---------- Every step, every run ----------

  lemma OnboardKeepsInv(db: Db, m: MerchantId, profile: Profile, maxAttempts: nat)
    requires Inv(db, maxAttempts)
    ensures Inv(Commit(db, OnboardTxn(db, m, profile)), maxAttempts)
  {
    if OnboardTxn(db, m, profile).Ok? {
      MerchantsKeepInv(db, db.merchants[m := Merchant(profile, Active)], maxAttempts);
    }
  }

  lemma MerchantStatusKeepsInv(db: Db, m: MerchantId, status: MerchantStatus, maxAttempts: nat)
    requires Inv(db, maxAttempts)
    ensures Inv(Commit(db, MerchantStatusTxn(db, m, status)), maxAttempts)
  {
    if m in db.merchants {
      MerchantsKeepInv(db, db.merchants[m := db.merchants[m].(status := status)], maxAttempts);
    }
  }

  lemma EndpointsKeepInv(db: Db, endpoints: map<EndpointId, Endpoint>, maxAttempts: nat)
    requires Inv(db, maxAttempts)
    ensures Inv(db.(endpoints := endpoints), maxAttempts)
  {
    OtherTablesKeepInv(db, db.(endpoints := endpoints), maxAttempts);
  }

  lemma EndpointTxnsSetEndpoints(db: Db, e: EndpointId, m: MerchantId, isActive: bool)
    ensures var d := Commit(db, EndpointTxn(db, e, m, isActive)); d == db.(endpoints := d.endpoints)
    ensures var d := Commit(db, RemoveEndpointTxn(db, e)); d == db.(endpoints := d.endpoints)
  {
  }

  lemma EndpointStepsKeepInv(db: Db, e: EndpointId, m: MerchantId, isActive: bool, maxAttempts: nat)
    requires Inv(db, maxAttempts)
    ensures Inv(Commit(db, EndpointTxn(db, e, m, isActive)), maxAttempts)
    ensures Inv(Commit(db, RemoveEndpointTxn(db, e)), maxAttempts)
  {
    EndpointTxnsSetEndpoints(db, e, m, isActive);
    EndpointsKeepInv(db, Commit(db, EndpointTxn(db, e, m, isActive)).endpoints, maxAttempts);
    EndpointsKeepInv(db, Commit(db, RemoveEndpointTxn(db, e)).endpoints, maxAttempts);
  }

  lemma RowStepKeepsInv(db: Db, key: EventKey, step: RowStep, maxAttempts: nat)
    requires Inv(db, maxAttempts) && maxAttempts >= 1 && !step.Advance? && !step.Complete?
    ensures Inv(Commit(db, RowTxn(db, key, step, maxAttempts)), maxAttempts)
  {
    if key in db.outbox {
      StepRowKeepsInv(db, key, step, maxAttempts, maxAttempts);
    }
  }

  lemma WorkerSettlementKeepsInv(db: Db, id: PaymentId, returnCode: string, maxAttempts: nat)
    requires Inv(db, maxAttempts) && maxAttempts >= 1
    ensures Inv(Commit(db, Worker.Settle(db, id)), maxAttempts)
    ensures Inv(Commit(db, Worker.Return(db, id, returnCode)), maxAttempts)
  {
    WorkerSettleIs(db, id);
    SettleKeepsInv(db, id, maxAttempts);
    WorkerReturnIs(db, id, returnCode);
    ReturnKeepsInv(db, id, returnCode, maxAttempts);
  }

  lemma EngineSettlementKeepsInv(db: Db, id: PaymentId, returnCode: string, maxAttempts: nat)
    requires Inv(db, maxAttempts) && maxAttempts >= 1
    ensures Inv(Commit(db, Engine.Settle(db, id)), maxAttempts)
    ensures Inv(Commit(db, Engine.Return(db, id, returnCode)), maxAttempts)
  {
    EngineSettleIs(db, id);
    SettleKeepsInv(db, id, maxAttempts);
    EngineReturnIs(db, id, returnCode);
    ReturnKeepsInv(db, id, returnCode, maxAttempts);
  }

  lemma BankStepKeepsInv(db: Db, step: Step, maxAttempts: nat)
    requires Inv(db, maxAttempts) && maxAttempts >= 1 && IsBankStep(step)
    ensures Inv(Commit(db, BankTxn(db, step)), maxAttempts)
  {
    match step
    case WorkerSettle(id) => WorkerSettlementKeepsInv(db, id, "", maxAttempts);
    case WorkerReturn(id, code) => WorkerSettlementKeepsInv(db, id, code, maxAttempts);
    case WorkerRelease(id) => ReleaseKeepsInv(db, id, maxAttempts);
  }

  lemma ApiSettlementStepKeepsInv(db: Db, step: Step, maxAttempts: nat)
    requires Inv(db, maxAttempts) && maxAttempts >= 1 && IsApiSettlementStep(step)
    ensures Inv(Commit(db, ApiSettlementTxn(db, step)), maxAttempts)
  {
    match step
    case ApiSettle(id) => EngineSettlementKeepsInv(db, id, "", maxAttempts);
    case ApiReturn(id, code) => EngineSettlementKeepsInv(db, id, code, maxAttempts);
  }

  lemma PaymentStepKeepsInv(db: Db, step: Step, maxAttempts: nat)
    requires Inv(db, maxAttempts) && maxAttempts >= 1 && IsPaymentStep(step)
    ensures Inv(Commit(db, PaymentTxn(db, step)), maxAttempts)
  {
    match step
    case CreatePayment(request, clientKey, caller, id, now) =>
      CreateKeepsInv(db, request, clientKey, caller, id, now, maxAttempts);
    case ApiValidate(id) => EngineValidateKeepsInv(db, id, maxAttempts);
    case ApiReserve(id) => EngineReserveKeepsInv(db, id, maxAttempts);
    case GenerateFile(day) => GenerateKeepsInv(db, day, maxAttempts);
  }

  lemma HandlerStepKeepsInv(db: Db, step: Step, maxAttempts: nat)
    requires Inv(db, maxAttempts) && maxAttempts >= 1 && IsHandlerStep(step)
    ensures Inv(Commit(db, HandlerTxn(db, step)), maxAttempts)
  {
    match step
    case ValidateReceived(key, t, seen) => ValidateKeepsInv(db, key, t, seen, maxAttempts);
    case MaterialiseWebhooks(key, t) => MaterialiseKeepsInv(db, key, t, maxAttempts);
  }

  lemma SetAccountKeepsInv(db: Db, a: AccountId, status: AccountStatus, maxAttempts: nat)
    requires Inv(db, maxAttempts)
    ensures Inv(db.(accounts := db.accounts[a := status]), maxAttempts)
  {
    OtherTablesKeepInv(db, db.(accounts := db.accounts[a := status]), maxAttempts);
  }

  lemma SettingStepKeepsInv(db: Db, step: Step, maxAttempts: nat)
    requires Inv(db, maxAttempts) && maxAttempts >= 1 && IsSettingStep(step)
    ensures Inv(Commit(db, SettingTxn(db, step)), maxAttempts)
  {
    match step
    case Onboard(m, profile) => OnboardKeepsInv(db, m, profile, maxAttempts);
    case SetMerchantStatus(m, status) => MerchantStatusKeepsInv(db, m, status, maxAttempts);
    case SetAccount(a, status) => SetAccountKeepsInv(db, a, status, maxAttempts);
    case SetEndpoint(e, m, isActive) => EndpointStepsKeepInv(db, e, m, isActive, maxAttempts);
    case RemoveEndpoint(e) => EndpointStepsKeepInv(db, e, "", false, maxAttempts);
    case ProvisionFunding(a, amount) => ProvisionKeepsInv(db, a, amount, maxAttempts);
    case SendWebhookTest(e, sentAt) => SendTestKeepsInv(db, e, sentAt, maxAttempts);
  }

  lemma StepKeepsInv(db: Db, step: Step, maxAttempts: nat)
    requires Inv(db, maxAttempts) && maxAttempts >= 1
    ensures Inv(Next(db, step, maxAttempts), maxAttempts)
  {
    if IsPaymentStep(step) {
      PaymentStepKeepsInv(db, step, maxAttempts);
    } else if IsBankStep(step) {
      BankStepKeepsInv(db, step, maxAttempts);
    } else if IsApiSettlementStep(step) {
      ApiSettlementStepKeepsInv(db, step, maxAttempts);
    } else if IsHandlerStep(step) {
      HandlerStepKeepsInv(db, step, maxAttempts);
    } else if IsClaimStep(step) {
      RowStepKeepsInv(db, step.key, ClaimStep(step), maxAttempts);
    } else {
      SettingStepKeepsInv(db, step, maxAttempts);
    }
  }

  lemma EmptyDatabaseIsFine(maxAttempts: nat)
    ensures Inv(EMPTY, maxAttempts)
  {
  }

  /** The invariant holds at the end of every run, hence in every state of every run. */
  lemma {:induction false} EveryRunKeepsInv(steps: seq<Step>, maxAttempts: nat)
    requires maxAttempts >= 1
    ensures Inv(Run(EMPTY, steps, maxAttempts), maxAttempts)
    decreases |steps|
  {
    if steps == [] {
      EmptyDatabaseIsFine(maxAttempts);
    } else {
      EveryRunKeepsInv(steps[..|steps| - 1], maxAttempts);
      StepKeepsInv(Run(EMPTY, steps[..|steps| - 1], maxAttempts), steps[|steps| - 1], maxAttempts);
    }
  }
}
