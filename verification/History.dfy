/** What later states of a run keep: rows are never lost, and every status only moves forward. */
module History {
  import Text
  import opened Store
  import opened OutboxProtocol
  import opened Funding
  import opened Effects
  import opened Mirroring
  import opened Invariants
  import opened Agreement
  import opened Safety
  import opened System
  import Exports
  import Creation
  import Worker = WorkerLifecycle
  import Engine = PaymentEngine

  predicate MayBecome(s: PaymentStatus, t: PaymentStatus) {
    match s
    case Received => true
    case Validated => !t.Received? && !t.ValidationFailed?
    case ValidationFailed => t.ValidationFailed?
    case Submitted => t.Submitted? || t.Settled? || t.Returned?
    case Settled => t.Settled? || t.Returned?
    case Returned => t.Returned?
  }

  predicate HoldMayBecome(s: HoldStatus, t: HoldStatus) {
    match s
    case HoldActive => true
    case HoldSettled => !t.HoldActive?
    case HoldReturned => t.HoldReturned? || t.HoldReleased?
    case HoldReleased => t.HoldReleased?
  }

  predicate PaymentPersists(p: Payment, q: Payment) {
    && q.details == p.details && q.idempotencyKey == p.idempotencyKey && q.createdAt == p.createdAt
    && (p.file.Some? ==> q.file == p.file)
    && MayBecome(p.status, q.status)
  }

  predicate HoldPersists(h: Hold, k: Hold) {
    k.account == h.account && k.amount == h.amount && HoldMayBecome(h.status, k.status)
  }

  predicate RowPersists(r: OutboxRow, s: OutboxRow) {
    && s.payload == r.payload && (r.covered.Some? ==> s.covered.Some?)
    && (r.claim.status.Processed? || r.claim.status.Failed? ==>
          s.claim.status == r.claim.status && s.claim.attempts == r.claim.attempts)
  }

  ghost predicate PaymentsPersist(ps: Effects.Payments, qs: Effects.Payments) {
    forall id | id in ps :: id in qs && PaymentPersists(ps[id], qs[id])
  }

  ghost predicate HoldsPersist(hs: Holds, ks: Holds) {
    forall id | id in hs :: id in ks && HoldPersists(hs[id], ks[id])
  }

  ghost predicate RowsPersist(o: map<EventKey, OutboxRow>, later: map<EventKey, OutboxRow>) {
    forall key | key in o :: key in later && RowPersists(o[key], later[key])
  }

  ghost predicate Keeps<K, V>(m: map<K, V>, later: map<K, V>) {
    forall k | k in m :: k in later && later[k] == m[k]
  }

  /** The ledger, the idempotency records, the deliveries and the files are append-only. */
  ghost predicate Later(db: Db, d: Db) {
    && PaymentsPersist(db.payments, d.payments)
    && HoldsPersist(db.holds, d.holds)
    && RowsPersist(db.outbox, d.outbox)
    && Keeps(db.ledger, d.ledger)
    && Keeps(db.idempotency, d.idempotency)
    && Keeps(db.deliveries, d.deliveries)
    && db.files <= d.files
    && db.charges <= d.charges
    && Rendering.SameProfiles(db.merchants, d.merchants)
  }

  lemma LaterIsTransitive(a: Db, b: Db, c: Db)
    requires Later(a, b) && Later(b, c)
    ensures Later(a, c)
  {
    forall id | id in a.payments ensures id in c.payments && PaymentPersists(a.payments[id], c.payments[id]) {
      assert PaymentPersists(a.payments[id], b.payments[id]) && PaymentPersists(b.payments[id], c.payments[id]);
    }
    forall id | id in a.holds ensures id in c.holds && HoldPersists(a.holds[id], c.holds[id]) {
      assert HoldPersists(a.holds[id], b.holds[id]) && HoldPersists(b.holds[id], c.holds[id]);
    }
    forall k | k in a.outbox ensures k in c.outbox && RowPersists(a.outbox[k], c.outbox[k]) {
      assert RowPersists(a.outbox[k], b.outbox[k]) && RowPersists(b.outbox[k], c.outbox[k]);
    }
  }

  // ---------- The effects ----------

  /** One payment moves forward, with fresh ledger and event keys. */
  ghost predicate Advances(db: Db, d: Db) {
    && PaymentsPersist(db.payments, d.payments) && HoldsPersist(db.holds, d.holds)
    && RowsPersist(db.outbox, d.outbox) && Keeps(db.ledger, d.ledger)
    && d.idempotency == db.idempotency && d.deliveries == db.deliveries && d.files == db.files
    && db.charges <= d.charges && d.merchants == db.merchants
  }

  lemma AdvancingIsLater(db: Db, d: Db)
    requires Advances(db, d)
    ensures Later(db, d)
  {
  }

  lemma ToVerdictIsLater(db: Db, id: PaymentId, code: Option<string>)
    requires Mirrored(db) && id in db.payments && db.payments[id].status.Received?
    ensures Later(db, ToVerdict(db, id, code))
  {
    SliceOf(db, id);
    AdvancingIsLater(db, ToVerdict(db, id, code));
  }

  lemma AdmittedIsLater(db: Db, id: PaymentId)
    requires Mirrored(db) && id in db.payments && id !in db.holds
    ensures Later(db, Admitted(db, id))
  {
    SliceOf(db, id);
    AdvancingIsLater(db, Admitted(db, id));
  }

  lemma ReleasedIsLater(db: Db, id: PaymentId)
    requires Mirrored(db) && id in db.payments && id in db.holds && !db.holds[id].status.HoldReleased?
    ensures Later(db, Released(db, id))
  {
    SliceOf(db, id);
    AdvancingIsLater(db, Released(db, id));
  }

  lemma CreditSettledIsLater(db: Db, id: PaymentId)
    requires Mirrored(db) && id in db.payments && id in db.holds
    requires db.holds[id].status.HoldActive? && db.payments[id].status.Submitted?
    ensures Later(db, CreditSettled(db, id))
  {
    SliceOf(db, id);
    AdvancingIsLater(db, CreditSettled(db, id));
  }

  lemma DebitSettledIsLater(db: Db, id: PaymentId)
    requires Mirrored(db) && id in db.payments
    requires db.payments[id].details.direction.Debit? && db.payments[id].status.Submitted?
    ensures Later(db, DebitSettled(db, id))
  {
    SliceOf(db, id);
    AdvancingIsLater(db, DebitSettled(db, id));
  }

  lemma CreditReturnedIsLater(db: Db, id: PaymentId, returnCode: string)
    requires Mirrored(db) && id in db.payments && id in db.holds && db.holds[id].status.HoldSettled?
    ensures Later(db, CreditReturned(db, id, returnCode))
  {
    SliceOf(db, id);
    AdvancingIsLater(db, CreditReturned(db, id, returnCode));
  }

  lemma DebitReturnedIsLater(db: Db, id: PaymentId, returnCode: string)
    requires Mirrored(db) && id in db.payments
    requires db.payments[id].details.direction.Debit? && db.payments[id].status.Settled?
    ensures Later(db, DebitReturned(db, id, returnCode))
  {
    SliceOf(db, id);
    AdvancingIsLater(db, DebitReturned(db, id, returnCode));
  }

  lemma StepRowIsLater(db: Db, key: EventKey, step: RowStep, maxAttempts: nat)
    requires key in db.outbox
    ensures Later(db, StepRow(db, key, step, maxAttempts))
  {
    AdvancingIsLater(db, StepRow(db, key, step, maxAttempts));
  }

  lemma SubmittedPaymentsPersist(db: Db, ids: set<PaymentId>)
    requires Mirrored(db) && forall id | id in ids :: id in db.payments && db.payments[id].status.Validated?
    ensures PaymentsPersist(db.payments, Exports.MarkSubmitted(db.payments, ids, |db.files|))
  {
    forall id | id in db.payments
      ensures PaymentPersists(db.payments[id], Exports.MarkSubmitted(db.payments, ids, |db.files|)[id])
    {
      SliceOf(db, id);
    }
  }

  lemma SubmittedRowsPersist(db: Db, ps: Effects.Payments, ids: set<PaymentId>)
    requires Mirrored(db) && ids <= ps.Keys
    requires forall id | id in ids :: id in db.payments && db.payments[id].status.Validated?
    ensures RowsPersist(db.outbox, db.outbox + Exports.SubmittedEvents(ps, ids))
  {
    forall k | k in db.outbox ensures k !in Exports.SubmittedEvents(ps, ids) {
      SubmittedKeys(ps, ids, k);
      if k.Lifecycle? {
        SliceOf(db, k.id);
      }
    }
  }

  lemma SubmitIsLater(db: Db, ids: set<PaymentId>, m: MerchantId, day: Day)
    requires Mirrored(db) && ids <= db.payments.Keys && Exports.CanRender(db.payments, db.merchants, ids)
    requires forall id | id in ids :: db.payments[id].status.Validated?
    ensures Later(db, Exports.Submit(db, ids, m, day))
  {
    SubmittedPaymentsPersist(db, ids);
    SubmittedRowsPersist(db, Exports.MarkSubmitted(db.payments, ids, |db.files|), ids);
  }

  lemma InsertedIsLater(db: Db, details: Details, key: string, id: PaymentId, now: int)
    requires Mirrored(db) && id !in db.payments && (details.merchantId, key) !in db.idempotency
    ensures Later(db, Inserted(db, details, key, id, now))
  {
    SliceOf(db, id);
  }

  lemma DeliveredIsLater(db: Db, key: EventKey, active: set<EndpointId>)
    requires key in db.outbox
    ensures Later(db, Delivered(db, key, active))
  {
  }

  // ---------- Every step, every run ----------

  lemma SettleIsLater(db: Db, id: PaymentId)
    requires Mirrored(db)
    ensures Later(db, Commit(db, SettleEffect(db, id)))
  {
    if SettleEffect(db, id).Ok? && SettleEffect(db, id).value != db {
      if id in db.holds {
        CreditSettledIsLater(db, id);
      } else {
        DebitSettledIsLater(db, id);
      }
    }
  }

  lemma ReturnIsLater(db: Db, id: PaymentId, returnCode: string)
    requires Mirrored(db)
    ensures Later(db, Commit(db, ReturnEffect(db, id, returnCode)))
  {
    if ReturnEffect(db, id, returnCode).Ok? && ReturnEffect(db, id, returnCode).value != db {
      if id in db.holds {
        CreditReturnedIsLater(db, id, returnCode);
      } else {
        DebitReturnedIsLater(db, id, returnCode);
      }
    }
  }

  lemma ReleaseIsLater(db: Db, id: PaymentId)
    requires Mirrored(db)
    ensures Later(db, Commit(db, Worker.Release(db, id)))
  {
    WorkerReleaseIs(db, id);
    SliceOf(db, id);
    if id in db.holds && !db.holds[id].status.HoldReleased? {
      ReleasedIsLater(db, id);
    }
  }

  lemma RefusalIsLater(db: Db, r: Result<Db>)
    requires r.Ok? ==> r.value == db
    ensures Later(db, Commit(db, r))
  {
  }

  lemma EngineValidateIsLater(db: Db, id: PaymentId)
    requires Mirrored(db) && PapersOk(db)
    ensures Later(db, Commit(db, Engine.Validate(db, id)))
  {
    var r := Engine.Validate(db, id);
    if id in db.payments && db.payments[id].status.Received? && r.Ok? {
      MerchantIsKnown(db, id);
      EngineValidateIs(db, id);
      ToVerdictIsLater(db, id, None);
    } else {
      RefusalIsLater(db, r);
    }
  }

  lemma EngineReserveIsLater(db: Db, id: PaymentId)
    requires Mirrored(db) && PapersOk(db)
    ensures Later(db, Commit(db, Engine.Reserve(db, id)))
  {
    var r := Engine.Reserve(db, id);
    if id in db.payments && id !in db.holds && db.payments[id].status.Validated?
       && db.payments[id].details.direction.Credit? && r.Ok? {
      MerchantIsKnown(db, id);
      EngineReserveIs(db, id);
      AdmittedIsLater(db, id);
    } else {
      RefusalIsLater(db, r);
    }
  }

  lemma CreateIsLater(db: Db, r: Creation.Request, clientKey: string, caller: MerchantId, id: PaymentId, now: int)
    requires Mirrored(db) && PapersOk(db)
    ensures Later(db, Commit(db, Creation.Create(db, r, clientKey, caller, id, now)))
  {
    var key := Text.Trim(clientKey);
    var d := Creation.Canonical(r, caller);
    if Creation.Create(db, r, clientKey, caller, id, now).Ok? {
      InsertIs(db, d, key, id, now);
      InsertedIsLater(db, d, key, id, now);
    }
  }

  lemma GenerateIsLater(db: Db, day: Day)
    requires Mirrored(db) && PapersOk(db)
    ensures Later(db, Commit(db, Exports.Generate(db, day)))
  {
    if Exports.Eligible(db.payments) != {} {
      GenerateIs(db, day);
      Exports.NextBatchIsEligible(db.payments);
      SubmitIsLater(db, Exports.NextBatch(db.payments), Exports.NextMerchant(db.payments), day);
    }
  }

  lemma ReserveIsLater(db: Db, id: PaymentId, key: EventKey)
    requires Mirrored(db) && PapersOk(db)
    ensures var r := Worker.ReserveDailyUsageAndTransition(db, id, key); r.Ok? ==> Later(db, r.value)
  {
    var r := Worker.ReserveDailyUsageAndTransition(db, id, key);
    if r.Ok? && db.payments[id].status.Received? {
      MerchantIsKnown(db, id);
      ReceivedIsUntouched(db, id);
      var d := DecisionEffect(db, id);
      DecisionIs(db, id, key);
      DecisionIsLater(db, id);
      StepRowIsLater(d, key, Complete, 0);
      LaterIsTransitive(db, d, r.value);
    } else if r.Ok? {
      StepRowIsLater(db, key, Complete, 0);
    }
  }

  /** The payment's part of the worker's validation transaction. */
  ghost function DecisionEffect(db: Db, id: PaymentId): Db
    requires Untouched(db, id)
  {
    var v := Worker.Decide(db, id);
    if v.Fail? then ToVerdict(db, id, Some(v.code))
    else if db.payments[id].details.direction.Debit? then DebitAdmitted(db, id)
    else Admitted(ToVerdict(db, id, None), id)
  }

  lemma DecisionIs(db: Db, id: PaymentId, key: EventKey)
    requires Untouched(db, id)
    ensures Worker.ReserveDailyUsageAndTransition(db, id, key) == Worker.CompleteOutbox(DecisionEffect(db, id), key)
  {
    if Worker.Decide(db, id).Fail? {
      WorkerRejects(db, id, key);
    } else if db.payments[id].details.direction.Debit? {
      WorkerAdmitsDebit(db, id, key);
    } else {
      WorkerAdmitsCredit(db, id, key);
    }
  }

  lemma DecisionIsLater(db: Db, id: PaymentId)
    requires Mirrored(db) && Untouched(db, id)
    ensures Later(db, DecisionEffect(db, id))
  {
    var v := Worker.Decide(db, id);
    if v.Fail? {
      ToVerdictIsLater(db, id, Some(v.code));
    } else {
      var validated := ToVerdict(db, id, None);
      ToVerdictIsLater(db, id, None);
      ToVerdictMirrors(db, id, None);
      if db.payments[id].details.direction.Debit? {
        AdvancingIsLater(validated, AddUsage(validated, id));
      } else {
        AdmittedIsLater(validated, id);
      }
      LaterIsTransitive(db, validated, DecisionEffect(db, id));
    }
  }

  lemma ValidateIsLater(db: Db, key: EventKey, t: nat, seen: MerchantStatus)
    requires Mirrored(db) && PapersOk(db)
    ensures Later(db, Commit(db, ValidateTxn(db, key, t, seen)))
  {
    var r := ValidateTxn(db, key, t, seen);
    if r.Ok? {
      var v := SeenVerdict(db, key.id, seen);
      var d := ValidationOutcome(db, key, v).value;
      if v.Pass? {
        ReserveIsLater(db, key.id, key);
      } else if db.payments[key.id].status.Received? {
        TransitionIs(db, key.id, v);
        ToVerdictIsLater(db, key.id, Some(v.code));
      }
      StepRowIsLater(d, key, Advance(t, PastValidation), 0);
      LaterIsTransitive(db, d, r.value);
    }
  }

  lemma MaterialiseIsLater(db: Db, key: EventKey, t: nat)
    ensures Later(db, Commit(db, MaterialiseTxn(db, key, t)))
  {
    var r := MaterialiseTxn(db, key, t);
    if r.Ok? {
      var d := if key.WebhookTest? then db
               else Delivered(db, key, ActiveEndpoints(db, db.outbox[key].payload.merchantId));
      if key.Lifecycle? {
        DeliveredIsLater(db, key, ActiveEndpoints(db, db.outbox[key].payload.merchantId));
      }
      StepRowIsLater(d, key, Advance(t, PastMaterialisation), 0);
      LaterIsTransitive(db, d, r.value);
    }
  }

  lemma RowTxnIsLater(db: Db, key: EventKey, step: RowStep, maxAttempts: nat)
    ensures Later(db, Commit(db, RowTxn(db, key, step, maxAttempts)))
  {
    if key in db.outbox {
      StepRowIsLater(db, key, step, maxAttempts);
    }
  }

  lemma WorkerSettlementIsLater(db: Db, id: PaymentId, returnCode: string)
    requires Mirrored(db)
    ensures Later(db, Commit(db, Worker.Settle(db, id)))
    ensures Later(db, Commit(db, Worker.Return(db, id, returnCode)))
  {
    WorkerSettleIs(db, id);
    SettleIsLater(db, id);
    WorkerReturnIs(db, id, returnCode);
    ReturnIsLater(db, id, returnCode);
  }

  lemma EngineSettlementIsLater(db: Db, id: PaymentId, returnCode: string)
    requires Mirrored(db)
    ensures Later(db, Commit(db, Engine.Settle(db, id)))
    ensures Later(db, Commit(db, Engine.Return(db, id, returnCode)))
  {
    EngineSettleIs(db, id);
    SettleIsLater(db, id);
    EngineReturnIs(db, id, returnCode);
    ReturnIsLater(db, id, returnCode);
  }

  lemma BankStepIsLater(db: Db, step: Step)
    requires Mirrored(db) && IsBankStep(step)
    ensures Later(db, Commit(db, BankTxn(db, step)))
  {
    match step
    case WorkerSettle(id) => WorkerSettlementIsLater(db, id, "");
    case WorkerReturn(id, code) => WorkerSettlementIsLater(db, id, code);
    case WorkerRelease(id) => ReleaseIsLater(db, id);
  }

  lemma ApiSettlementStepIsLater(db: Db, step: Step)
    requires Mirrored(db) && IsApiSettlementStep(step)
    ensures Later(db, Commit(db, ApiSettlementTxn(db, step)))
  {
    match step
    case ApiSettle(id) => EngineSettlementIsLater(db, id, "");
    case ApiReturn(id, code) => EngineSettlementIsLater(db, id, code);
  }

  lemma PaymentStepIsLater(db: Db, step: Step)
    requires Mirrored(db) && PapersOk(db) && IsPaymentStep(step)
    ensures Later(db, Commit(db, PaymentTxn(db, step)))
  {
    match step
    case CreatePayment(request, clientKey, caller, id, now) => CreateIsLater(db, request, clientKey, caller, id, now);
    case ApiValidate(id) => EngineValidateIsLater(db, id);
    case ApiReserve(id) => EngineReserveIsLater(db, id);
    case GenerateFile(day) => GenerateIsLater(db, day);
  }

  lemma HandlerStepIsLater(db: Db, step: Step)
    requires Mirrored(db) && PapersOk(db) && IsHandlerStep(step)
    ensures Later(db, Commit(db, HandlerTxn(db, step)))
  {
    match step
    case ValidateReceived(key, t, seen) => ValidateIsLater(db, key, t, seen);
    case MaterialiseWebhooks(key, t) => MaterialiseIsLater(db, key, t);
  }

  lemma MerchantsAreLater(db: Db, merchants: map<MerchantId, Merchant>)
    requires Rendering.SameProfiles(db.merchants, merchants)
    ensures Later(db, db.(merchants := merchants))
  {
  }

  lemma OnboardIsLater(db: Db, m: MerchantId, profile: Profile)
    ensures Later(db, Commit(db, OnboardTxn(db, m, profile)))
  {
    if m in db.merchants || !Text.ColonFree(m) {
      SettingsAreLater(db, db);
    } else {
      MerchantsAreLater(db, db.merchants[m := Merchant(profile, Active)]);
    }
  }

  lemma MerchantStatusIsLater(db: Db, m: MerchantId, status: MerchantStatus)
    ensures Later(db, Commit(db, MerchantStatusTxn(db, m, status)))
  {
    if m in db.merchants {
      MerchantsAreLater(db, db.merchants[m := db.merchants[m].(status := status)]);
    } else {
      SettingsAreLater(db, db);
    }
  }

  lemma SettingsAreLater(db: Db, d: Db)
    requires d == db.(accounts := d.accounts, endpoints := d.endpoints)
    ensures Later(db, d)
  {
    AdvancingIsLater(db, d);
  }

  lemma PostingIsLater(db: Db, key: EntryKey, e: Entry)
    requires key !in db.ledger
    ensures Later(db, Post(db, key, e))
  {
    AdvancingIsLater(db, Post(db, key, e));
  }

  lemma ProvisionIsLater(db: Db, a: AccountId, amount: int)
    ensures Later(db, Commit(db, ProvisionTxn(db, a, amount)))
  {
    var d := if a in db.accounts then db else db.(accounts := db.accounts[a := AccountActive]);
    SettingsAreLater(db, d);
    if DemoFundingKey(a) !in d.ledger {
      var e := Entry(a, None, InitialCredit, amount);
      PostingIsLater(d, DemoFundingKey(a), e);
      LaterIsTransitive(db, d, Post(d, DemoFundingKey(a), e));
    }
  }

  lemma EndpointTxnsAreLater(db: Db, e: EndpointId, m: MerchantId, isActive: bool)
    ensures Later(db, Commit(db, EndpointTxn(db, e, m, isActive)))
    ensures Later(db, Commit(db, RemoveEndpointTxn(db, e)))
  {
    EndpointTxnsSetEndpoints(db, e, m, isActive);
    SettingsAreLater(db, db.(endpoints := Commit(db, EndpointTxn(db, e, m, isActive)).endpoints));
    SettingsAreLater(db, db.(endpoints := Commit(db, RemoveEndpointTxn(db, e)).endpoints));
  }

  lemma SendTestIsLater(db: Db, e: EndpointId, sentAt: int)
    ensures Later(db, Commit(db, SendTestTxn(db, e, sentAt)))
  {
  }

  lemma SetAccountIsLater(db: Db, a: AccountId, status: AccountStatus)
    ensures Later(db, db.(accounts := db.accounts[a := status]))
  {
    SettingsAreLater(db, db.(accounts := db.accounts[a := status]));
  }

  lemma SettingStepIsLater(db: Db, step: Step)
    requires IsSettingStep(step)
    ensures Later(db, Commit(db, SettingTxn(db, step)))
  {
    match step
    case Onboard(m, profile) => OnboardIsLater(db, m, profile);
    case SetMerchantStatus(m, status) => MerchantStatusIsLater(db, m, status);
    case SetAccount(a, status) => SetAccountIsLater(db, a, status);
    case ProvisionFunding(a, amount) => ProvisionIsLater(db, a, amount);
    case SetEndpoint(e, m, isActive) => EndpointTxnsAreLater(db, e, m, isActive);
    case RemoveEndpoint(e) => EndpointTxnsAreLater(db, e, "", false);
    case SendWebhookTest(e, sentAt) => SendTestIsLater(db, e, sentAt);
  }

  /** No step loses a row, rewrites an immutable one, or moves a status backwards. */
  lemma StepIsLater(db: Db, step: Step, maxAttempts: nat)
    requires Mirrored(db) && PapersOk(db)
    ensures Later(db, Next(db, step, maxAttempts))
  {
    if IsPaymentStep(step) {
      PaymentStepIsLater(db, step);
    } else if IsBankStep(step) {
      BankStepIsLater(db, step);
    } else if IsApiSettlementStep(step) {
      ApiSettlementStepIsLater(db, step);
    } else if IsHandlerStep(step) {
      HandlerStepIsLater(db, step);
    } else if IsClaimStep(step) {
      RowTxnIsLater(db, step.key, ClaimStep(step), maxAttempts);
    } else {
      SettingStepIsLater(db, step);
    }
  }

  /** Any later state of a run keeps what an earlier one had. */
  lemma {:induction false} RunIsLater(db: Db, steps: seq<Step>, maxAttempts: nat)
    requires Inv(db, maxAttempts) && maxAttempts >= 1
    ensures Inv(System.Run(db, steps, maxAttempts), maxAttempts)
    ensures Later(db, System.Run(db, steps, maxAttempts))
    decreases |steps|
  {
    if steps != [] {
      var before := System.Run(db, steps[..|steps| - 1], maxAttempts);
      RunIsLater(db, steps[..|steps| - 1], maxAttempts);
      StepKeepsInv(before, steps[|steps| - 1], maxAttempts);
      StepIsLater(before, steps[|steps| - 1], maxAttempts);
      LaterIsTransitive(db, before, System.Run(db, steps, maxAttempts));
    }
  }

  lemma StateIsSafe(db: Db, steps: seq<Step>, i: nat, maxAttempts: nat)
    requires Inv(db, maxAttempts) && maxAttempts >= 1 && i <= |steps|
    ensures Inv(States(db, steps, maxAttempts)[i], maxAttempts)
  {
    RunIsLater(db, steps[..i], maxAttempts);
  }
}
