/** Whether a PAYMENT_RECEIVED event is ever delivered: the validation can mark it PROCESSED before its
    deliveries are made, and then everything depends on the handlers that are still alive. */
module Delivery {
  import opened Store
  import opened OutboxProtocol
  import opened Effects
  import opened Records
  import opened Invariants
  import opened Agreement
  import opened Safety
  import opened History
  import opened Announcements
  import opened System
  import opened Moves
  import opened Witnesses
  import Theorems
  import Text
  import Worker = WorkerLifecycle

  // ---------- Who writes a row ----------

  predicate Handles(step: Step, key: EventKey) {
    (IsClaimStep(step) || IsHandlerStep(step)) && step.key == key
  }

  ghost predicate RowStays(db: Db, d: Db, key: EventKey)
    requires key in db.outbox
  {
    key in d.outbox && d.outbox[key] == db.outbox[key]
  }

  lemma MoveKeepsRow(db: Db, m: Move, d: Db, key: EventKey)
    requires Mirrored(db) && Makes(db, m, d) && key in db.outbox
    ensures RowStays(db, d, key)
  {
    MovedRows(db, m);
  }

  lemma SettlementKeepsRow(db: Db, step: Step, key: EventKey)
    requires Mirrored(db) && key in db.outbox && IsSettlementStep(step)
    ensures IsApiSettlementStep(step) ==> RowStays(db, Commit(db, ApiSettlementTxn(db, step)), key)
    ensures IsBankStep(step) ==> RowStays(db, Commit(db, BankTxn(db, step)), key)
  {
    if IsApiSettlementStep(step) {
      ApiSettlementMoves(db, step);
      MoveKeepsRow(db, ClearingMove(db, step), Commit(db, ApiSettlementTxn(db, step)), key);
    } else {
      BankMoves(db, step);
      MoveKeepsRow(db, ClearingMove(db, step), Commit(db, BankTxn(db, step)), key);
    }
  }

  lemma ValidationOutboxIs(db: Db, key: EventKey, t: nat, seen: MerchantStatus, m: Move)
    requires Mirrored(db) && Validates(db, key, t, seen, m)
    ensures var d := Commit(db, ValidateTxn(db, key, t, seen));
            && d.deliveries == db.deliveries
            && key in d.outbox
            && d.outbox[key] == db.outbox[key].(claim := ValidatedClaim(db.outbox[key].claim, t,
                                                                        SeenVerdict(db, key.id, seen).Pass?))
            && forall k | k in db.outbox && k != key :: RowStays(db, d, k)
  {
    MovedRows(db, m);
  }

  lemma AdvancingOutboxIs(db: Db, key: EventKey, t: nat)
    requires key in db.outbox
    ensures var d := StepRow(db, key, Advance(t, PastMaterialisation), 0);
            && d.outbox == db.outbox[key := d.outbox[key]] && d.outbox[key].covered == db.outbox[key].covered
            && d.outbox[key].claim.status == db.outbox[key].claim.status
  {
  }

  lemma DeliveredOutboxIs(db: Db, key: EventKey, active: set<EndpointId>)
    requires key in db.outbox
    ensures var d := Delivered(db, key, active);
            && d.outbox == db.outbox[key := d.outbox[key]] && d.outbox[key].covered == Some(active)
            && d.outbox[key].claim == db.outbox[key].claim
  {
  }

  lemma MaterialisationOutboxIs(db: Db, key: EventKey, t: nat)
    requires MaterialiseTxn(db, key, t).Ok?
    ensures var d := MaterialiseTxn(db, key, t).value;
            && key in db.outbox && key in d.outbox && d.outbox == db.outbox[key := d.outbox[key]]
            && d.outbox[key].claim.status == db.outbox[key].claim.status
            && (key.Lifecycle? ==> d.outbox[key].covered.Some?)
  {
    if key.Lifecycle? {
      var active := ActiveEndpoints(db, db.outbox[key].payload.merchantId);
      DeliveredOutboxIs(db, key, active);
      AdvancingOutboxIs(Delivered(db, key, active), key, t);
    } else {
      AdvancingOutboxIs(db, key, t);
    }
  }

  lemma OtherValidationKeepsRow(db: Db, other: EventKey, t: nat, seen: MerchantStatus, key: EventKey)
    requires Mirrored(db) && PapersOk(db) && key in db.outbox && other != key
    ensures RowStays(db, Commit(db, ValidateTxn(db, other, t, seen)), key)
  {
    if ValidateTxn(db, other, t, seen).Ok? {
      ValidationMoves(db, other, t, seen);
      ValidationOutboxIs(db, other, t, seen, ValidationMove(db, other, t, seen));
    }
  }

  lemma OtherMaterialisationKeepsRow(db: Db, other: EventKey, t: nat, key: EventKey)
    requires key in db.outbox && other != key
    ensures RowStays(db, Commit(db, MaterialiseTxn(db, other, t)), key)
  {
    if MaterialiseTxn(db, other, t).Ok? {
      MaterialisationOutboxIs(db, other, t);
    }
  }

  lemma OtherHandlerKeepsRow(db: Db, step: Step, key: EventKey)
    requires Mirrored(db) && PapersOk(db) && key in db.outbox && IsHandlerStep(step) && step.key != key
    ensures RowStays(db, Commit(db, HandlerTxn(db, step)), key)
  {
    match step
    case ValidateReceived(other, t, seen) => OtherValidationKeepsRow(db, other, t, seen, key);
    case MaterialiseWebhooks(other, t) => OtherMaterialisationKeepsRow(db, other, t, key);
  }

  lemma OtherClaimKeepsRow(db: Db, other: EventKey, step: RowStep, maxAttempts: nat, key: EventKey)
    requires key in db.outbox && other != key
    ensures RowStays(db, Commit(db, RowTxn(db, other, step, maxAttempts)), key)
  {
  }

  lemma PaymentStepKeepsRow(db: Db, step: Step, key: EventKey)
    requires Mirrored(db) && PapersOk(db) && key in db.outbox && IsPaymentStep(step)
    ensures RowStays(db, Commit(db, PaymentTxn(db, step)), key)
  {
    PaymentTxnMoves(db, step);
    MoveKeepsRow(db, PaymentMove(db, step), Commit(db, PaymentTxn(db, step)), key);
  }

  lemma MerchantTxnsKeepOutbox(db: Db, m: MerchantId, profile: Profile, status: MerchantStatus)
    ensures Commit(db, OnboardTxn(db, m, profile)).outbox == db.outbox
    ensures Commit(db, MerchantStatusTxn(db, m, status)).outbox == db.outbox
  {
  }

  lemma SendTestKeepsRow(db: Db, e: EndpointId, sentAt: int, key: EventKey)
    requires key in db.outbox
    ensures RowStays(db, Commit(db, SendTestTxn(db, e, sentAt)), key)
  {
  }

  lemma SettingKeepsRow(db: Db, step: Step, key: EventKey)
    requires key in db.outbox && IsSettingStep(step)
    ensures RowStays(db, Commit(db, SettingTxn(db, step)), key)
  {
    match step
    case Onboard(m, profile) => MerchantTxnsKeepOutbox(db, m, profile, Active);
    case SetMerchantStatus(m, status) => MerchantTxnsKeepOutbox(db, m, Profile("", "", false, false, 0, 0), status);
    case SetAccount(a, status) =>
    case ProvisionFunding(a, amount) => ProvisionOnlyFunds(db, a, amount);
    case SetEndpoint(e, m, isActive) => EndpointTxnsSetEndpoints(db, e, m, isActive);
    case RemoveEndpoint(e) => EndpointTxnsSetEndpoints(db, e, "", false);
    case SendWebhookTest(e, sentAt) => SendTestKeepsRow(db, e, sentAt, key);
  }

  /** Only claims and handlers of an event rewrite its row. */
  lemma StepKeepsRow(db: Db, step: Step, key: EventKey, maxAttempts: nat)
    requires Mirrored(db) && PapersOk(db) && key in db.outbox && !Handles(step, key)
    ensures RowStays(db, Next(db, step, maxAttempts), key)
  {
    if IsPaymentStep(step) {
      PaymentStepKeepsRow(db, step, key);
    } else if IsSettlementStep(step) {
      SettlementKeepsRow(db, step, key);
    } else if IsHandlerStep(step) {
      OtherHandlerKeepsRow(db, step, key);
    } else if IsClaimStep(step) {
      OtherClaimKeepsRow(db, step.key, ClaimStep(step), maxAttempts, key);
    } else {
      SettingKeepsRow(db, step, key);
    }
  }

  // ---------- Reaching PROCESSED ----------

  ghost predicate IsProcessed(db: Db, key: EventKey) {
    key in db.outbox && db.outbox[key].claim.status.Processed?
  }

  ghost predicate IsCovered(db: Db, key: EventKey) {
    key in db.outbox && db.outbox[key].covered.Some?
  }

  lemma ClaimStepProcesses(db: Db, step: Step, maxAttempts: nat)
    requires Covered(db.outbox, db.deliveries) && IsClaimStep(step) && IsReceived(step.key)
    requires !IsProcessed(db, step.key)
    ensures var d := Commit(db, RowTxn(db, step.key, ClaimStep(step), maxAttempts));
            && (IsCovered(d, step.key) <==> IsCovered(db, step.key))
            && (IsProcessed(d, step.key) ==> step.MarkRowProcessed? && IsCovered(db, step.key))
  {
    if step.key in db.outbox {
      assert RowCovered(step.key, db.outbox[step.key], db.deliveries);
    }
  }

  lemma ValidationCovers(db: Db, key: EventKey, t: nat, seen: MerchantStatus)
    requires Mirrored(db) && PapersOk(db) && key in db.outbox
    ensures var d := Commit(db, ValidateTxn(db, key, t, seen)); IsCovered(d, key) <==> IsCovered(db, key)
  {
    if ValidateTxn(db, key, t, seen).Ok? {
      ValidationMoves(db, key, t, seen);
      ValidationOutboxIs(db, key, t, seen, ValidationMove(db, key, t, seen));
    }
  }

  lemma MaterialisingProcessesNothing(db: Db, key: EventKey, t: nat)
    ensures IsProcessed(Commit(db, MaterialiseTxn(db, key, t)), key) <==> IsProcessed(db, key)
  {
    if MaterialiseTxn(db, key, t).Ok? {
      MaterialisationOutboxIs(db, key, t);
    }
  }

  lemma HandlerProcesses(db: Db, step: Step)
    requires Mirrored(db) && PapersOk(db) && IsHandlerStep(step) && step.key in db.outbox
    requires !IsProcessed(db, step.key) && IsProcessed(Commit(db, HandlerTxn(db, step)), step.key)
    ensures step.ValidateReceived?
    ensures IsCovered(Commit(db, HandlerTxn(db, step)), step.key) <==> IsCovered(db, step.key)
  {
    match step
    case ValidateReceived(key, t, seen) => ValidationCovers(db, key, t, seen);
    case MaterialiseWebhooks(key, t) => MaterialisingProcessesNothing(db, key, t);
  }

  lemma OnlyHandlersProcess(db: Db, d: Db, step: Step, key: EventKey, maxAttempts: nat)
    requires Mirrored(db) && PapersOk(db) && key in db.outbox && d == Next(db, step, maxAttempts)
    requires !IsProcessed(db, key) && IsProcessed(d, key)
    ensures Handles(step, key)
  {
    if !Handles(step, key) {
      StepKeepsRow(db, step, key, maxAttempts);
    }
  }

  lemma ClaimNextProcesses(db: Db, d: Db, step: Step, maxAttempts: nat)
    requires Covered(db.outbox, db.deliveries) && IsClaimStep(step) && d == Next(db, step, maxAttempts)
    requires IsReceived(step.key) && !IsProcessed(db, step.key) && IsProcessed(d, step.key)
    ensures step.MarkRowProcessed? && IsCovered(d, step.key)
  {
    ClaimStepProcesses(db, step, maxAttempts);
  }

  lemma HandlerNextProcesses(db: Db, d: Db, step: Step, maxAttempts: nat)
    requires Mirrored(db) && PapersOk(db) && IsHandlerStep(step) && d == Next(db, step, maxAttempts)
    requires step.key in db.outbox && !IsProcessed(db, step.key) && IsProcessed(d, step.key)
    ensures step.ValidateReceived? && (IsCovered(d, step.key) <==> IsCovered(db, step.key))
  {
    HandlerProcesses(db, step);
  }

  /** The step that makes a PAYMENT_RECEIVED event PROCESSED is its handler's report or its validation, and it
      leaves the event covered exactly when it is that report, or deliveries had been made before. */
  lemma ProcessingCovers(db: Db, d: Db, step: Step, key: EventKey, maxAttempts: nat)
    requires Mirrored(db) && PapersOk(db) && RowsOk(db, maxAttempts) && d == Next(db, step, maxAttempts)
    requires IsReceived(key) && key in db.outbox && !IsProcessed(db, key) && IsProcessed(d, key)
    ensures Handles(step, key) && (step.MarkRowProcessed? || step.ValidateReceived?)
    ensures IsCovered(d, key) <==> step.MarkRowProcessed? || IsCovered(db, key)
  {
    OnlyHandlersProcess(db, d, step, key, maxAttempts);
    if IsClaimStep(step) {
      ClaimNextProcesses(db, d, step, maxAttempts);
    } else {
      HandlerNextProcesses(db, d, step, maxAttempts);
    }
  }

  // ---------- Lost events ----------

  predicate MayTransition(db: Db, id: PaymentId) {
    id in db.payments && (db.payments[id].status.Received? || db.payments[id].status.Validated?
                          || db.payments[id].status.ValidationFailed?)
  }

  /** A handler that can still get to the deliveries: past its validation, or before it while the payment
      would let a rejecting validation go through once more. */
  predicate CanDeliver(db: Db, key: EventKey, t: nat)
    requires key.Lifecycle?
  {
    HandlerAt(db, key, t, PastValidation) || (HandlerAt(db, key, t, AtStart) && MayTransition(db, key.id))
  }

  /** PROCESSED without deliveries, and no handler left to make them. */
  ghost predicate Lost(db: Db, key: EventKey) {
    && IsReceived(key) && IsProcessed(db, key) && !IsCovered(db, key)
    && forall t | t in db.outbox[key].claim.handlers :: !CanDeliver(db, key, t)
  }

  lemma KeptRowStaysLost(db: Db, d: Db, key: EventKey)
    requires Lost(db, key) && key.id in db.payments && RowStays(db, d, key) && Later(db, d)
    ensures Lost(d, key)
  {
    assert PaymentPersists(db.payments[key.id], d.payments[key.id]);
    forall t | t in d.outbox[key].claim.handlers ensures !CanDeliver(d, key, t) {
      assert !CanDeliver(db, key, t);
    }
  }

  lemma ClaimStepKeepsLost(db: Db, step: Step, maxAttempts: nat)
    requires IsClaimStep(step) && Lost(db, step.key)
    ensures Lost(Commit(db, RowTxn(db, step.key, ClaimStep(step), maxAttempts)), step.key)
  {
    var d := Commit(db, RowTxn(db, step.key, ClaimStep(step), maxAttempts));
    forall t | t in d.outbox[step.key].claim.handlers ensures !CanDeliver(d, step.key, t) {
      assert !CanDeliver(db, step.key, t);
    }
  }

  /** Both transactions of a validation are refused: the claim is gone, and the payment has moved on. */
  lemma LostValidationFails(db: Db, key: EventKey, t: nat, seen: MerchantStatus)
    requires Lost(db, key)
    ensures ValidateTxn(db, key, t, seen).Err?
  {
    if t in db.outbox[key].claim.handlers {
      assert !CanDeliver(db, key, t);
    }
  }

  lemma LostMaterialisationFails(db: Db, key: EventKey, t: nat)
    requires Lost(db, key)
    ensures MaterialiseTxn(db, key, t).Err?
  {
    if t in db.outbox[key].claim.handlers {
      assert !CanDeliver(db, key, t);
    }
  }

  lemma HandlerStepKeepsLost(db: Db, step: Step)
    requires IsHandlerStep(step) && Lost(db, step.key)
    ensures Commit(db, HandlerTxn(db, step)) == db
  {
    match step
    case ValidateReceived(key, t, seen) => LostValidationFails(db, key, t, seen);
    case MaterialiseWebhooks(key, t) => LostMaterialisationFails(db, key, t);
  }

  lemma OtherStepKeepsLost(db: Db, d: Db, step: Step, key: EventKey, maxAttempts: nat)
    requires Mirrored(db) && PapersOk(db) && Lost(db, key) && !Handles(step, key) && d == Next(db, step, maxAttempts)
    ensures Lost(d, key)
  {
    SliceOf(db, key.id);
    StepKeepsRow(db, step, key, maxAttempts);
    StepIsLater(db, step, maxAttempts);
    KeptRowStaysLost(db, d, key);
  }

  lemma OwnStepKeepsLost(db: Db, d: Db, step: Step, maxAttempts: nat)
    requires IsClaimStep(step) || IsHandlerStep(step)
    requires Lost(db, step.key) && d == Next(db, step, maxAttempts)
    ensures Lost(d, step.key)
  {
    if IsClaimStep(step) {
      ClaimStepKeepsLost(db, step, maxAttempts);
    } else {
      HandlerStepKeepsLost(db, step);
    }
  }

  lemma StepKeepsLost(db: Db, d: Db, step: Step, key: EventKey, maxAttempts: nat)
    requires Mirrored(db) && PapersOk(db) && Lost(db, key) && d == Next(db, step, maxAttempts)
    ensures Lost(d, key)
  {
    if Handles(step, key) {
      OwnStepKeepsLost(db, d, step, maxAttempts);
    } else {
      OtherStepKeepsLost(db, d, step, key, maxAttempts);
    }
  }

  lemma {:induction false} LostIsForever(db: Db, steps: seq<Step>, key: EventKey, maxAttempts: nat)
    requires Inv(db, maxAttempts) && maxAttempts >= 1 && Lost(db, key)
    ensures Lost(System.Run(db, steps, maxAttempts), key)
    decreases |steps|
  {
    if steps != [] {
      var before := System.Run(db, steps[..|steps| - 1], maxAttempts);
      LostIsForever(db, steps[..|steps| - 1], key, maxAttempts);
      RunIsLater(db, steps[..|steps| - 1], maxAttempts);
      StepKeepsLost(before, System.Run(db, steps, maxAttempts), steps[|steps| - 1], key, maxAttempts);
    }
  }

  lemma CoveredWhenDelivered(db: Db, key: EventKey, maxAttempts: nat)
    requires Reachable(db, maxAttempts) && maxAttempts >= 1 && IsReceived(key) && !IsCovered(db, key)
    ensures forall e :: (key, e) !in db.deliveries
  {
    forall e ensures (key, e) !in db.deliveries {
      if (key, e) in db.deliveries {
        DeliveriesTellTheTruth(db, key, e, maxAttempts);
      }
    }
  }

  /** No continuation delivers a lost event to anyone. */
  lemma LostIsNeverDelivered(db: Db, steps: seq<Step>, key: EventKey, maxAttempts: nat)
    requires Reachable(db, maxAttempts) && maxAttempts >= 1 && Lost(db, key)
    ensures Lost(System.Run(db, steps, maxAttempts), key)
    ensures forall e :: (key, e) !in System.Run(db, steps, maxAttempts).deliveries
  {
    Theorems.ReachableIsSafe(db, maxAttempts);
    LostIsForever(db, steps, key, maxAttempts);
    System.RunIsReachable(db, steps, maxAttempts);
    CoveredWhenDelivered(System.Run(db, steps, maxAttempts), key, maxAttempts);
  }

  // ---------- Events that are not lost ----------

  lemma MaterialisingDelivers(db: Db, key: EventKey, t: nat, maxAttempts: nat)
    requires IsReceived(key) && HandlerAt(db, key, t, PastValidation)
    ensures IsCovered(Next(db, MaterialiseWebhooks(key, t), maxAttempts), key)
  {
    MaterialisationOutboxIs(db, key, t);
  }

  lemma SuspendedIsRejected(db: Db, id: PaymentId)
    requires id in db.payments
    ensures SeenVerdict(db, id, Suspended).Fail?
  {
  }

  /** The rejecting transaction accepts a payment that has its verdict already. */
  lemma RejectionIsAccepted(db: Db, key: EventKey, v: Worker.Verdict)
    requires Mirrored(db) && IsReceived(key) && key in db.outbox && MayTransition(db, key.id)
    ensures var r := Worker.TransitionFromReceived(db, key.id, v); r.Ok? && RowStays(db, r.value, key)
  {
    if db.payments[key.id].status.Received? {
      TransitionIs(db, key.id, v);
    }
  }

  lemma AdvancingHandler(db: Db, key: EventKey, t: nat)
    requires key in db.outbox && t in db.outbox[key].claim.handlers
    ensures HandlerAt(StepRow(db, key, Advance(t, PastValidation), 0), key, t, PastValidation)
  {
  }

  lemma RejectionAdvances(db: Db, key: EventKey, t: nat)
    requires Mirrored(db) && IsReceived(key) && HandlerAt(db, key, t, AtStart) && MayTransition(db, key.id)
    ensures var r := ValidateTxn(db, key, t, Suspended); r.Ok? && HandlerAt(r.value, key, t, PastValidation)
  {
    var v := SeenVerdict(db, key.id, Suspended);
    SuspendedIsRejected(db, key.id);
    RejectionIsAccepted(db, key, v);
    AdvancingHandler(Worker.TransitionFromReceived(db, key.id, v).value, key, t);
  }

  lemma SuspensionKeeps(db: Db, m: MerchantId)
    ensures var d := Commit(db, MerchantStatusTxn(db, m, Suspended));
            d.outbox == db.outbox && d.payments == db.payments && (Mirrored(db) ==> Mirrored(d))
  {
  }

  lemma SuspensionNext(db: Db, d: Db, m: MerchantId, maxAttempts: nat)
    requires Mirrored(db) && d == Next(db, SetMerchantStatus(m, Suspended), maxAttempts)
    ensures Mirrored(d) && d.outbox == db.outbox && d.payments == db.payments
  {
    SuspensionKeeps(db, m);
  }

  lemma RejectionNext(db: Db, d: Db, key: EventKey, t: nat, maxAttempts: nat)
    requires Mirrored(db) && IsReceived(key) && HandlerAt(db, key, t, AtStart) && MayTransition(db, key.id)
    requires d == Next(db, ValidateReceived(key, t, Suspended), maxAttempts)
    ensures HandlerAt(d, key, t, PastValidation)
  {
    RejectionAdvances(db, key, t);
  }

  /** Such a handler can finish: if need be, the merchant is suspended before its validation. */
  lemma HandlerCanDeliver(db: Db, key: EventKey, t: nat, maxAttempts: nat) returns (d: Db)
    requires Mirrored(db) && IsReceived(key) && CanDeliver(db, key, t)
    ensures Leads(db, d, maxAttempts) && IsCovered(d, key)
  {
    var past := db;
    System.LeadsNowhere(db, maxAttempts);
    if !HandlerAt(db, key, t, PastValidation) {
      var m := db.payments[key.id].details.merchantId;
      var suspended := Next(db, SetMerchantStatus(m, Suspended), maxAttempts);
      SuspensionNext(db, suspended, m, maxAttempts);
      System.LeadsNext(db, db, SetMerchantStatus(m, Suspended), maxAttempts);
      past := Next(suspended, ValidateReceived(key, t, Suspended), maxAttempts);
      RejectionNext(suspended, past, key, t, maxAttempts);
      System.LeadsNext(db, suspended, ValidateReceived(key, t, Suspended), maxAttempts);
    }
    MaterialisingDelivers(past, key, t, maxAttempts);
    System.LeadsNext(db, past, MaterialiseWebhooks(key, t), maxAttempts);
    d := Next(past, MaterialiseWebhooks(key, t), maxAttempts);
  }

  /** A PROCESSED and uncovered event is lost exactly when no continuation materialises it. */
  lemma LostIffNeverCovered(db: Db, key: EventKey, maxAttempts: nat)
    requires Reachable(db, maxAttempts) && maxAttempts >= 1
    requires IsReceived(key) && IsProcessed(db, key) && !IsCovered(db, key)
    ensures Lost(db, key) <==> forall d | Leads(db, d, maxAttempts) :: !IsCovered(d, key)
  {
    Theorems.ReachableIsSafe(db, maxAttempts);
    if Lost(db, key) {
      forall d | Leads(db, d, maxAttempts) ensures !IsCovered(d, key) {
        var steps :| d == System.Run(db, steps, maxAttempts);
        LostIsForever(db, steps, key, maxAttempts);
      }
    } else {
      var t :| t in db.outbox[key].claim.handlers && CanDeliver(db, key, t);
      var d := HandlerCanDeliver(db, key, t, maxAttempts);
    }
  }

  // ---------- Events do get lost ----------

  function Taken(amount: nat, maxAttempts: nat): Db {
    StepRow(Asked(Plain(1, amount)), RECEIVED, Acquire, maxAttempts)
  }

  lemma DebitAdmissionKeepsRow(db: Db, id: PaymentId, key: EventKey)
    requires id in db.payments && IsReceived(key) && key in db.outbox
    ensures RowStays(db, DebitAdmitted(db, id), key) && DebitAdmitted(db, id).endpoints == db.endpoints
  {
  }

  lemma ValidationPasses(db: Db, done: Db, key: EventKey, t: nat, seen: MerchantStatus)
    requires IsReceived(key) && HandlerAt(db, key, t, AtStart) && key.id in db.payments
    requires SeenVerdict(db, key.id, seen).Pass? && Worker.CompleteOutbox(done, key).Ok?
    requires Worker.ReserveDailyUsageAndTransition(db, key.id, key) == Worker.CompleteOutbox(done, key)
    ensures ValidateTxn(db, key, t, seen)
         == Ok(Reclaimed(done, key, ValidatedClaim(done.outbox[key].claim, t, true)))
  {
    CompletingReclaims(done, key, t);
  }

  /** A debit of a known merchant that the rules and the limit let pass. */
  ghost predicate Passes(db: Db, id: PaymentId, seen: MerchantStatus) {
    && id in db.payments && db.payments[id].status.Received? && db.payments[id].details.direction.Debit?
    && db.payments[id].details.merchantId in db.merchants
    && SeenVerdict(db, id, seen).Pass? && Worker.Decide(db, id).Pass?
  }

  lemma PassingIsProcessed(db: Db, key: EventKey, t: nat, seen: MerchantStatus)
    requires Mirrored(db) && IsReceived(key) && HandlerAt(db, key, t, AtStart) && Passes(db, key.id, seen)
    requires db.outbox[key].claim.status.Processing?
    ensures var r := ValidateTxn(db, key, t, seen);
            && r.Ok? && r.value.endpoints == db.endpoints && key in r.value.outbox
            && r.value.outbox[key] == db.outbox[key].(claim := ValidatedClaim(db.outbox[key].claim, t, true))
  {
    ReceivedIsUntouched(db, key.id);
    WorkerAdmitsDebit(db, key.id, key);
    DebitAdmissionKeepsRow(db, key.id, key);
    ValidationPasses(db, DebitAdmitted(db, key.id), key, t, seen);
  }

  /** PROCESSED with a live handler that has yet to make the deliveries. */
  ghost predicate AwaitsDeliveries(db: Db) {
    && RECEIVED in db.outbox && db.outbox[RECEIVED].covered.None?
    && db.outbox[RECEIVED].claim == Claim(OutboxStatus.Processed, 1, map[1 := PastValidation])
    && db.outbox[RECEIVED].payload.merchantId == SHOP && db.endpoints == map["e" := Endpoint(SHOP, true)]
  }

  /** Claimed, and before its validation. */
  ghost predicate AwaitsValidation(db: Db) {
    && RECEIVED in db.outbox && db.outbox[RECEIVED].covered.None?
    && db.outbox[RECEIVED].claim == Claim(OutboxStatus.Processing, 1, map[1 := AtStart])
    && db.outbox[RECEIVED].payload.merchantId == SHOP && db.endpoints == map["e" := Endpoint(SHOP, true)]
    && Passes(db, "p", Active)
  }

  lemma TakenIsClaimed(amount: nat, maxAttempts: nat)
    ensures var db := Taken(amount, maxAttempts);
            && RECEIVED in db.outbox && db.outbox[RECEIVED].covered.None?
            && db.outbox[RECEIVED].claim == Claim(OutboxStatus.Processing, 1, map[1 := AtStart])
            && db.outbox[RECEIVED].payload.merchantId == SHOP && db.endpoints == map["e" := Endpoint(SHOP, true)]
  {
    assert FRESH.handlers[1 := AtStart] == map[1 := AtStart];
  }

  lemma TakenPasses(amount: nat, maxAttempts: nat)
    requires amount >= 1
    ensures Passes(Taken(amount, maxAttempts), "p", Active)
  {
    assert Text.Trim("r") == "r" && Text.Trim("a") == "a" && Text.Trim("123456789") == "123456789";
  }

  lemma TakenAwaits(amount: nat, maxAttempts: nat)
    requires amount >= 1
    ensures AwaitsValidation(Taken(amount, maxAttempts))
  {
    TakenIsClaimed(amount, maxAttempts);
    TakenPasses(amount, maxAttempts);
  }

  lemma ClaimOfPassing()
    ensures ValidatedClaim(Claim(OutboxStatus.Processing, 1, map[1 := AtStart]), 1, true)
         == Claim(OutboxStatus.Processed, 1, map[1 := PastValidation])
  {
    assert map[1 := AtStart][1 := PastValidation] == map[1 := PastValidation];
  }

  lemma ValidationAwaits(db: Db)
    requires Mirrored(db) && AwaitsValidation(db)
    ensures AwaitsDeliveries(Commit(db, ValidateTxn(db, RECEIVED, 1, Active)))
  {
    PassingIsProcessed(db, RECEIVED, 1, Active);
    ClaimOfPassing();
  }

  lemma ClaimArrives(db: Db, key: EventKey, maxAttempts: nat)
    requires Arrives(db, maxAttempts) && maxAttempts >= 1 && key in db.outbox
    ensures Arrives(StepRow(db, key, Acquire, maxAttempts), maxAttempts)
  {
    ArrivesNext(db, ClaimRow(key), maxAttempts);
  }

  lemma TakenArrives(amount: nat, maxAttempts: nat)
    requires amount >= 1 && maxAttempts >= 1
    ensures Arrives(Taken(amount, maxAttempts), maxAttempts)
  {
    AskedArrives(Plain(1, amount), maxAttempts);
    ClaimArrives(Asked(Plain(1, amount)), RECEIVED, maxAttempts);
  }

  lemma ValidatingArrives(db: Db, maxAttempts: nat) returns (d: Db)
    requires Arrives(db, maxAttempts) && maxAttempts >= 1
    requires AwaitsDeliveries(Commit(db, ValidateTxn(db, RECEIVED, 1, Active)))
    ensures Arrives(d, maxAttempts) && AwaitsDeliveries(d)
  {
    ArrivesNext(db, ValidateReceived(RECEIVED, 1, Active), maxAttempts);
    d := Next(db, ValidateReceived(RECEIVED, 1, Active), maxAttempts);
  }

  lemma ProcessedArrives(amount: nat, maxAttempts: nat) returns (d: Db)
    requires amount >= 1 && maxAttempts >= 1
    ensures Arrives(d, maxAttempts) && AwaitsDeliveries(d)
  {
    TakenArrives(amount, maxAttempts);
    TakenAwaits(amount, maxAttempts);
    ValidationAwaits(Taken(amount, maxAttempts));
    d := ValidatingArrives(Taken(amount, maxAttempts), maxAttempts);
  }

  lemma CrashLoses(db: Db, d: Db, maxAttempts: nat)
    requires AwaitsDeliveries(db) && d == Next(db, CrashHandler(RECEIVED, 1), maxAttempts)
    ensures Lost(d, RECEIVED) && d.endpoints == db.endpoints && d.outbox[RECEIVED].payload.merchantId == SHOP
  {
    assert (map[1 := PastValidation] - {1}).Keys == {};
  }

  /** A payment that passes the rules, an endpoint that wants its events, a crash at the wrong moment: the
      PAYMENT_RECEIVED event is PROCESSED and lost. */
  lemma ReceivedCanBeLost(maxAttempts: nat)
    requires maxAttempts >= 1
    ensures exists db ::
              && Reachable(db, maxAttempts) && Lost(db, RECEIVED)
              && ActiveEndpoints(db, db.outbox[RECEIVED].payload.merchantId) != {}
  {
    var processed := ProcessedArrives(1, maxAttempts);
    var crashed := Next(processed, CrashHandler(RECEIVED, 1), maxAttempts);
    CrashLoses(processed, crashed, maxAttempts);
    StepIsReachable(processed, CrashHandler(RECEIVED, 1), maxAttempts);
    assert "e" in ActiveEndpoints(crashed, SHOP);
  }
}
