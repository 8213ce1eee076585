/** The main results, for every run of the system from the empty database. */
module Theorems {
  import opened Store
  import opened OutboxProtocol
  import opened Funding
  import opened Effects
  import opened Balances
  import opened Metering
  import opened Rendering
  import opened Records
  import opened Invariants
  import opened Agreement
  import opened Safety
  import opened History
  import opened System
  import opened Moves
  import Solvency
  import Exports
  import Worker = WorkerLifecycle
  import Engine = PaymentEngine

  lemma ReachableIsSafe(db: Db, maxAttempts: nat)
    requires Reachable(db, maxAttempts) && maxAttempts >= 1
    ensures Inv(db, maxAttempts)
  {
    var steps :| db == System.Run(EMPTY, steps, maxAttempts);
    EveryRunKeepsInv(steps, maxAttempts);
  }

  // ---------- Money ----------

  /** Whatever happens in whatever order: available funds can only be short by debits that have
      settled, and the posted balance is a closed form of the payment statuses. */
  lemma FundingIsNeverOversubscribed(db: Db, a: AccountId, maxAttempts: nat)
    requires Reachable(db, maxAttempts) && maxAttempts >= 1
    ensures Available(db, a) + SettledDebits(db.payments, a) >= 0
    ensures SettledDebits(db.payments, a) == 0 ==> Available(db, a) >= 0
    ensures Posted(db, a) == InitialCredits(db.ledger, a) - SettledDebits(db.payments, a)
                             + ReturnedCredits(db.payments, a)
  {
    ReachableIsSafe(db, maxAttempts);
    NeverOversubscribed(db, a);
  }

  /** Available funds are not always non-negative: from any reachable state, one step takes them below zero exactly
      when it settles a debit for more than is available, and they stay non-negative along a run exactly when no
      step of it does so. */
  lemma FundsGoShortOnlyByOverdrawing(db: Db, step: Step, steps: seq<Step>, a: AccountId, maxAttempts: nat)
    requires Reachable(db, maxAttempts) && maxAttempts >= 1 && Available(db, a) >= 0
    ensures Available(Next(db, step, maxAttempts), a) >= 0 <==> !Solvency.Overdraws(db, step, a)
    ensures Solvency.AlwaysFunded(db, steps, a, maxAttempts) <==> Solvency.NeverOverdraws(db, steps, a, maxAttempts)
  {
    ReachableIsSafe(db, maxAttempts);
    Solvency.StepStaysFunded(db, step, a, maxAttempts);
    Solvency.RunStaysFunded(db, steps, a, maxAttempts);
  }

  /** The daily usage is the sum of the charged payments, none charged twice, within the limit. Every charged
      payment was admitted, and a credit is charged exactly when it holds a reservation. */
  lemma DailyUsageIsExact(db: Db, m: MerchantId, day: int, maxAttempts: nat)
    requires Reachable(db, maxAttempts) && maxAttempts >= 1
    ensures Utilized(db.usage, m, day) == Charged(db.charges, db.payments, m, day)
    ensures Distinct(db.charges)
    ensures (m, day) in db.usage ==>
              m in db.merchants && db.usage[(m, day)] <= db.merchants[m].profile.dailyAmountLimit
    ensures forall id | id in db.charges ::
              id in db.payments && !db.payments[id].status.Received? && !db.payments[id].status.ValidationFailed?
    ensures forall id | id in db.payments && db.payments[id].details.direction.Credit? ::
              id in db.charges <==> id in db.holds
  {
    ReachableIsSafe(db, maxAttempts);
    forall id | id in db.charges ensures WasAdmitted(id, db.payments, db.holds) {
      var i :| 0 <= i < |db.charges| && db.charges[i] == id;
    }
  }

  // ---------- Lifecycle ----------

  /** The validation outcome is decided once: exactly one of the two events, matching the status. */
  lemma OneValidationOutcome(db: Db, id: PaymentId, maxAttempts: nat)
    requires Reachable(db, maxAttempts) && maxAttempts >= 1 && id in db.payments
    ensures !(Lifecycle(id, PaymentValidated) in db.outbox && Lifecycle(id, PaymentValidationFailed) in db.outbox)
    ensures db.payments[id].status.Received? <==>
              Lifecycle(id, PaymentValidated) !in db.outbox && Lifecycle(id, PaymentValidationFailed) !in db.outbox
    ensures id in db.holds ==> HoldOk(db.payments[id], db.holds[id])
    ensures LedgerMirrors(id, db.payments[id], db.holds, db.ledger)
  {
    ReachableIsSafe(db, maxAttempts);
    SliceOf(db, id);
  }

  /** Statuses only move forward, so a payment settles and returns at most once per run; its
      reservation keeps account and amount; ledger entries are never rewritten. */
  lemma StatusesOnlyAdvance(db: Db, steps: seq<Step>, id: PaymentId, maxAttempts: nat)
    requires Reachable(db, maxAttempts) && maxAttempts >= 1 && id in db.payments
    ensures var d := System.Run(db, steps, maxAttempts);
            && id in d.payments && MayBecome(db.payments[id].status, d.payments[id].status)
            && (Cleared(db.payments[id]) ==> Cleared(d.payments[id]))
            && (id in db.holds ==> id in d.holds && HoldPersists(db.holds[id], d.holds[id]))
            && Keeps(db.ledger, d.ledger)
  {
    ReachableIsSafe(db, maxAttempts);
    RunIsLater(db, steps, maxAttempts);
    assert PaymentPersists(db.payments[id], System.Run(db, steps, maxAttempts).payments[id]);
  }

  predicate InsertsClientKey(step: Step) {
    step.CreatePayment? || step.Onboard? || step.SendWebhookTest?
  }

  /** No enabled transition meets a key that is already present: unique constraints can only fire
      on keys that come from a client. */
  lemma NoUniqueViolation(db: Db, step: Step, maxAttempts: nat)
    requires Reachable(db, maxAttempts) && maxAttempts >= 1 && !InsertsClientKey(step)
    ensures Txn(db, step, maxAttempts) != Err(UniqueViolation)
  {
    ReachableIsSafe(db, maxAttempts);
    if IsSettlementStep(step) {
      SettlementsMeetNoKey(db, step, maxAttempts);
    } else if step.ApiValidate? || step.ApiReserve? {
      AdmissionsMeetNoKey(db, step.id);
    } else if step.ValidateReceived? {
      ValidationMeetsNoKey(db, step.key, step.t, step.seen);
    } else if step.GenerateFile? {
      ExportsMeetNoKey(db, step.day);
    } else {
      OthersMeetNoKey(db, step, maxAttempts);
    }
  }

  lemma ExportsMeetNoKey(db: Db, day: Day)
    requires Mirrored(db) && PapersOk(db)
    ensures Exports.Generate(db, day) != Err(UniqueViolation)
  {
    if Exports.Eligible(db.payments) != {} {
      GenerateIs(db, day);
    }
  }

  lemma OthersMeetNoKey(db: Db, step: Step, maxAttempts: nat)
    requires !InsertsClientKey(step) && (IsSettingStep(step) || IsClaimStep(step) || step.MaterialiseWebhooks?)
    ensures Txn(db, step, maxAttempts) != Err(UniqueViolation)
  {
  }

  lemma SettlementsMeetNoKey(db: Db, step: Step, maxAttempts: nat)
    requires Mirrored(db) && IsSettlementStep(step)
    ensures Txn(db, step, maxAttempts) != Err(UniqueViolation)
  {
    match step
    case ApiSettle(id) => EngineSettleIs(db, id);
    case WorkerSettle(id) => WorkerSettleIs(db, id);
    case ApiReturn(id, code) => EngineReturnIs(db, id, code);
    case WorkerReturn(id, code) => WorkerReturnIs(db, id, code);
    case WorkerRelease(id) => WorkerReleaseIs(db, id);
  }

  lemma AdmissionsMeetNoKey(db: Db, id: PaymentId)
    requires Mirrored(db) && PapersOk(db)
    ensures Engine.Validate(db, id) != Err(UniqueViolation)
    ensures Engine.Reserve(db, id) != Err(UniqueViolation)
  {
    if id in db.payments {
      MerchantIsKnown(db, id);
      EngineValidateIs(db, id);
      if id !in db.holds && db.payments[id].status.Validated? && db.payments[id].details.direction.Credit? {
        EngineReserveIs(db, id);
      }
    }
  }

  lemma ValidationMeetsNoKey(db: Db, key: EventKey, t: nat, seen: MerchantStatus)
    requires Mirrored(db) && PapersOk(db)
    ensures ValidateTxn(db, key, t, seen) != Err(UniqueViolation)
  {
    if key.Lifecycle? && key.id in db.payments && db.payments[key.id].status.Received? {
      MerchantIsKnown(db, key.id);
      ReceivedIsUntouched(db, key.id);
      DecisionIs(db, key.id, key);
      TransitionIs(db, key.id, SeenVerdict(db, key.id, seen));
    }
  }

  function RowAt(db: Db, key: EventKey): Option<OutboxRow> {
    if key in db.outbox then Some(db.outbox[key]) else None
  }

  lemma AdmissionKeepsRow(db: Db, id: PaymentId, code: Option<string>, key: EventKey)
    requires id in db.payments && IsReceived(key)
    ensures RowAt(ToVerdict(db, id, code), key) == RowAt(db, key)
    ensures RowAt(AddUsage(db, id), key) == RowAt(db, key)
    ensures RowAt(Admitted(db, id), key) == RowAt(db, key)
  {
  }

  lemma DecisionKeepsRow(db: Db, id: PaymentId, key: EventKey)
    requires Untouched(db, id) && IsReceived(key)
    ensures RowAt(DecisionEffect(db, id), key) == RowAt(db, key)
  {
    var v := Worker.Decide(db, id);
    if v.Fail? {
      AdmissionKeepsRow(db, id, Some(v.code), key);
    } else {
      AdmissionKeepsRow(db, id, None, key);
      AdmissionKeepsRow(ToVerdict(db, id, None), id, None, key);
    }
  }

  lemma CompletionNeedsTheClaim(db: Db, key: EventKey)
    ensures Worker.CompleteOutbox(db, key).Ok? ==>
              && key in db.outbox && db.outbox[key].claim.status.Processing?
              && Worker.CompleteOutbox(db, key).value.outbox[key].claim.status.Processed?
              && SameBooks(db, Worker.CompleteOutbox(db, key).value)
  {
  }

  lemma ReserveNeedsTheClaim(db: Db, id: PaymentId, key: EventKey)
    requires Mirrored(db) && PapersOk(db) && IsReceived(key)
    ensures var r := Worker.ReserveDailyUsageAndTransition(db, id, key);
            r.Ok? && !SameBooks(db, r.value) ==>
              && key in db.outbox && db.outbox[key].claim.status.Processing?
              && key in r.value.outbox && r.value.outbox[key].claim.status.Processed?
  {
    if id in db.payments && db.payments[id].status.Received? {
      MerchantIsKnown(db, id);
      ReceivedIsUntouched(db, id);
      DecisionIs(db, id, key);
      DecisionKeepsRow(db, id, key);
      CompletionNeedsTheClaim(DecisionEffect(db, id), key);
    } else {
      CompletionNeedsTheClaim(db, key);
    }
  }

  lemma TransitionKeepsBooks(db: Db, id: PaymentId, v: Worker.Verdict)
    ensures SameBooks(db, Commit(db, Worker.TransitionFromReceived(db, id, v)))
  {
  }

  lemma AdvancingKeepsBooks(db: Db, key: EventKey, t: nat, phase: Phase)
    requires key in db.outbox
    ensures var d := StepRow(db, key, Advance(t, phase), 0);
            SameBooks(db, d) && key in d.outbox && d.outbox[key].claim.status == db.outbox[key].claim.status
  {
  }

  lemma ValidationNeedsTheClaim(db: Db, key: EventKey, t: nat, seen: MerchantStatus)
    requires Mirrored(db) && PapersOk(db)
    ensures var r := ValidateTxn(db, key, t, seen);
            r.Ok? && !SameBooks(db, r.value) ==>
              && key in db.outbox && db.outbox[key].claim.status.Processing?
              && key in r.value.outbox && r.value.outbox[key].claim.status.Processed?
  {
    if ValidateTxn(db, key, t, seen).Ok? {
      var v := SeenVerdict(db, key.id, seen);
      ReserveNeedsTheClaim(db, key.id, key);
      TransitionKeepsBooks(db, key.id, v);
      AdvancingKeepsBooks(ValidationOutcome(db, key, v).value, key, t, PastValidation);
    }
  }

  /** The worker's funding writes commit only together with PROCESSING -> PROCESSED on the event. */
  lemma FundingNeedsTheClaim(db: Db, key: EventKey, t: nat, seen: MerchantStatus, maxAttempts: nat)
    requires Reachable(db, maxAttempts) && maxAttempts >= 1
    ensures var d := Next(db, ValidateReceived(key, t, seen), maxAttempts);
            !SameBooks(db, d) ==>
              && key in db.outbox && db.outbox[key].claim.status.Processing?
              && key in d.outbox && d.outbox[key].claim.status.Processed?
  {
    ReachableIsSafe(db, maxAttempts);
    ValidationNeedsTheClaim(db, key, t, seen);
  }

  // ---------- Agreement of the two services ----------

  /** The API's and the worker's settlement accept the same payments and commit the same tables. The labels of the
      failures are the model's: of those only that both fail is a fact of the code. */
  lemma SettlementServicesAgree(db: Db, id: PaymentId, maxAttempts: nat)
    requires Reachable(db, maxAttempts) && maxAttempts >= 1
    ensures Txn(db, ApiSettle(id), maxAttempts) == Txn(db, WorkerSettle(id), maxAttempts)
  {
    ReachableIsSafe(db, maxAttempts);
    WorkerSettleIs(db, id);
    EngineSettleIs(db, id);
  }

  /** So do their returns, although the worker checks the payment's status and the API does not. */
  lemma ReturnServicesAgree(db: Db, id: PaymentId, returnCode: string, maxAttempts: nat)
    requires Reachable(db, maxAttempts) && maxAttempts >= 1
    ensures Txn(db, ApiReturn(id, returnCode), maxAttempts) == Txn(db, WorkerReturn(id, returnCode), maxAttempts)
  {
    ReachableIsSafe(db, maxAttempts);
    WorkerReturnIs(db, id, returnCode);
    EngineReturnIs(db, id, returnCode);
  }

  /** For a credit, the API's validate followed by reserve and the worker's one transaction accept the same
      payments and leave the same tables, apart from the outbox row that the worker completes. */
  lemma AdmissionServicesAgree(db: Db, id: PaymentId, key: EventKey, maxAttempts: nat)
    requires Reachable(db, maxAttempts) && maxAttempts >= 1
    requires id in db.payments && db.payments[id].status.Received? && db.payments[id].details.direction.Credit?
    requires var d := db.payments[id].details;
             d.merchantId in db.merchants ==> Engine.MeetsRequirements(d, db.merchants[d.merchantId])
    ensures Engine.Validate(db, id).Ok?
    ensures var reserved := Engine.Reserve(Engine.Validate(db, id).value, id);
            && (Worker.Decide(db, id).Pass? <==> reserved.Ok?)
            && (reserved.Ok? ==>
                  Worker.ReserveDailyUsageAndTransition(db, id, key) == Worker.CompleteOutbox(reserved.value, key))
  {
    ReachableIsSafe(db, maxAttempts);
    MerchantIsKnown(db, id);
    CreditAdmissionAgrees(db, id, key);
  }

  // ---------- Files ----------

  /** A generated file downloads as exactly the text that was hashed, at every later time: for an
      administrator and for the merchant whose file it is, while any other merchant finds no file. */
  lemma DownloadsNeverChange(db: Db, steps: seq<Step>, f: nat, scope: Option<MerchantId>, maxAttempts: nat)
    requires Reachable(db, maxAttempts) && maxAttempts >= 1 && f < |db.files|
    ensures Exports.Download(System.Run(db, steps, maxAttempts), f, scope)
         == if scope.None? || scope.value == db.files[f].companyId then Ok(db.files[f].digestOf) else Err(NotFound)
  {
    var d := System.Run(db, steps, maxAttempts);
    ReachableIsSafe(db, maxAttempts);
    RunIsLater(db, steps, maxAttempts);
    StoredFilesStay(db, d, f, maxAttempts);
    DownloadMatches(d, f, scope);
  }

  lemma StoredFilesStay(db: Db, d: Db, f: nat, maxAttempts: nat)
    requires Inv(d, maxAttempts) && Later(db, d) && f < |db.files|
    ensures FilesOk(d.files, d.payments, d.merchants) && f < |d.files| && d.files[f] == db.files[f]
  {
  }

  // ---------- Outbox ----------

  /** No event is ever claimed more than 2 * maxAttempts - 1 times, and a terminal event stays so. */
  lemma EveryEventIsBounded(db: Db, steps: seq<Step>, key: EventKey, maxAttempts: nat)
    requires Reachable(db, maxAttempts) && maxAttempts >= 1 && key in db.outbox
    ensures db.outbox[key].claim.attempts <= 2 * maxAttempts - 1
    ensures var d := System.Run(db, steps, maxAttempts);
            && key in d.outbox && d.outbox[key].payload == db.outbox[key].payload
            && (db.outbox[key].claim.status.Processed? || db.outbox[key].claim.status.Failed? ==>
                  d.outbox[key].claim.status == db.outbox[key].claim.status)
  {
    ReachableIsSafe(db, maxAttempts);
    RunIsLater(db, steps, maxAttempts);
    assert Bounded(db.outbox[key].claim, maxAttempts);
    assert RowPersists(db.outbox[key], System.Run(db, steps, maxAttempts).outbox[key]);
  }

  /** A PROCESSED event other than PAYMENT_RECEIVED was materialised, and has a delivery for every
      endpoint that was active then; a webhook test has the delivery it was created with. */
  lemma ProcessedEventsAreDelivered(db: Db, key: EventKey, maxAttempts: nat)
    requires Reachable(db, maxAttempts) && maxAttempts >= 1
    requires key in db.outbox && db.outbox[key].claim.status.Processed? && !IsReceived(key)
    ensures key.Lifecycle? ==>
              && db.outbox[key].covered.Some?
              && forall e | e in db.outbox[key].covered.value :: (key, e) in db.deliveries
    ensures key.WebhookTest? ==> (key, key.endpoint) in db.deliveries
  {
    ReachableIsSafe(db, maxAttempts);
    assert RowCovered(key, db.outbox[key], db.deliveries);
  }

  /** An endpoint of the merchant that is switched on. */
  predicate Listens(endpoints: map<EndpointId, Endpoint>, e: EndpointId, m: MerchantId) {
    e in endpoints && endpoints[e].merchantId == m && endpoints[e].isActive
  }

  /** What a materialisation records: the endpoints of the event's merchant that are active at that step, one
      delivery of the event's payload each, and deliveries that exist already are left as they are. */
  lemma MaterialisationCoversActiveEndpoints(db: Db, key: EventKey, t: nat, maxAttempts: nat)
    requires key.Lifecycle?
    ensures var d := Next(db, MaterialiseWebhooks(key, t), maxAttempts);
            && Keeps(db.deliveries, d.deliveries)
            && (d != db ==>
                  && key in db.outbox && key in d.outbox && d.outbox[key].covered.Some?
                  && (forall e :: e in d.outbox[key].covered.value <==>
                        Listens(db.endpoints, e, db.outbox[key].payload.merchantId))
                  && (forall e :: (key, e) in d.deliveries <==>
                        (key, e) in db.deliveries || Listens(db.endpoints, e, db.outbox[key].payload.merchantId))
                  && forall k | k in d.deliveries && k !in db.deliveries ::
                       k.0 == key && d.deliveries[k] == db.outbox[key].payload)
  {
    if MaterialiseTxn(db, key, t).Ok? {
      ActiveListen(db, db.outbox[key].payload.merchantId);
      DeliveredIs(db, key, ActiveEndpoints(db, db.outbox[key].payload.merchantId));
    }
  }

  lemma ActiveListen(db: Db, m: MerchantId)
    ensures forall e :: e in ActiveEndpoints(db, m) <==> Listens(db.endpoints, e, m)
  {
  }

  lemma DeliveredIs(db: Db, key: EventKey, active: set<EndpointId>)
    requires key in db.outbox
    ensures var d := Delivered(db, key, active);
            && Keeps(db.deliveries, d.deliveries)
            && (forall e :: (key, e) in d.deliveries <==> (key, e) in db.deliveries || e in active)
            && forall k | k in d.deliveries && k !in db.deliveries ::
                 k.0 == key && d.deliveries[k] == db.outbox[key].payload
  {
    forall e ensures (key, e) in Delivered(db, key, active).deliveries <==> (key, e) in db.deliveries || e in active {
      if e in active && (key, e) !in db.deliveries {
        assert (key, e) in NewDeliveries(db, key, active);
      }
    }
  }

  lemma CompletionDeliversNothing(db: Db, key: EventKey)
    ensures var r := Worker.CompleteOutbox(db, key);
            r.Ok? ==> r.value.deliveries == db.deliveries && key in r.value.outbox && key in db.outbox
                      && r.value.outbox[key].claim.status.Processed?
                      && r.value.outbox[key].covered == db.outbox[key].covered
  {
  }

  lemma AdmissionDeliversNothing(db: Db, id: PaymentId, code: Option<string>)
    requires id in db.payments
    ensures ToVerdict(db, id, code).deliveries == db.deliveries
    ensures AddUsage(db, id).deliveries == db.deliveries && DebitAdmitted(db, id).deliveries == db.deliveries
    ensures Admitted(db, id).deliveries == db.deliveries && id in ToVerdict(db, id, code).payments
  {
  }

  lemma DecisionDeliversNothing(db: Db, id: PaymentId, key: EventKey)
    requires Untouched(db, id) && IsReceived(key)
    ensures DecisionEffect(db, id).deliveries == db.deliveries
    ensures RowAt(DecisionEffect(db, id), key) == RowAt(db, key)
  {
    DecisionKeepsRow(db, id, key);
    var v := Worker.Decide(db, id);
    if v.Fail? {
      AdmissionDeliversNothing(db, id, Some(v.code));
    } else {
      AdmissionDeliversNothing(db, id, None);
      AdmissionDeliversNothing(ToVerdict(db, id, None), id, None);
    }
  }

  /** PAYMENT_RECEIVED is the exception to that: the validation of a payment that passes the rules makes the
      event PROCESSED and delivers nothing itself. The module Delivery says what becomes of the event then. */
  lemma AcceptanceDeliversNothing(db: Db, id: PaymentId, maxAttempts: nat)
    requires Reachable(db, maxAttempts) && maxAttempts >= 1
    ensures var key := Lifecycle(id, PaymentReceived);
            var r := Worker.ReserveDailyUsageAndTransition(db, id, key);
            r.Ok? ==>
              && key in db.outbox && key in r.value.outbox && r.value.outbox[key].claim.status.Processed?
              && r.value.outbox[key].covered == db.outbox[key].covered && r.value.deliveries == db.deliveries
  {
    var key := Lifecycle(id, PaymentReceived);
    ReachableIsSafe(db, maxAttempts);
    if id in db.payments && db.payments[id].status.Received? {
      MerchantIsKnown(db, id);
      ReceivedIsUntouched(db, id);
      DecisionIs(db, id, key);
      DecisionDeliversNothing(db, id, key);
      CompletionDeliversNothing(DecisionEffect(db, id), key);
    } else {
      CompletionDeliversNothing(db, key);
    }
  }
}
