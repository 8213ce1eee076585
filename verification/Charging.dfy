/** Which steps charge the daily usage, and for which payments. */
module Charging {
  import opened Store
  import opened Effects
  import opened Metering
  import opened Invariants
  import opened Safety
  import opened History
  import opened System
  import opened Moves
  import Announcements
  import Theorems
  import Engine = PaymentEngine

  /** A step admits a payment when the API's reserve writes its reservation, or when the worker's validation takes
      it from RECEIVED to VALIDATED. */
  predicate Admits(db: Db, d: Db, step: Step) {
    || (step.ApiReserve? && step.id !in db.holds && step.id in d.holds)
    || (step.ValidateReceived? && step.key.Lifecycle?
        && HasStatus(db, step.key.id, Received) && HasStatus(d, step.key.id, Validated))
  }

  /** The payment that such a step admits. */
  function AdmittedId(step: Step): PaymentId
    requires step.ApiReserve? || (step.ValidateReceived? && step.key.Lifecycle?)
  {
    if step.ApiReserve? then step.id else step.key.id
  }

  ghost predicate ChargesExactly(db: Db, d: Db, step: Step) {
    && d.charges == db.charges + (if Admits(db, d, step) then [AdmittedId(step)] else [])
    && (Admits(db, d, step) ==>
          var id := AdmittedId(step);
          && id !in db.charges && HasStatus(d, id, Validated)
          && (d.payments[id].details.direction.Credit? ==> id !in db.holds && id in d.holds))
  }

  lemma ReceivedIsUncharged(db: Db, id: PaymentId)
    requires Metered(db) && HasStatus(db, id, Received)
    ensures id !in db.charges
  {
  }

  lemma UnheldCreditIsUncharged(db: Db, id: PaymentId)
    requires Metered(db) && id in db.payments && db.payments[id].details.direction.Credit? && id !in db.holds
    ensures id !in db.charges
  {
  }

  lemma ReserveCharges(db: Db, id: PaymentId)
    requires Mirrored(db) && PapersOk(db) && Metered(db)
    ensures ChargesExactly(db, Commit(db, Engine.Reserve(db, id)), ApiReserve(id))
  {
    var m := ReserveMove(db, id);
    ReserveMoves(db, id);
    MovedCharges(db, m);
    if m.ReserveCredit? {
      UnheldCreditIsUncharged(db, id);
    }
  }

  lemma OtherPaymentMoveCharges(db: Db, step: Step)
    requires IsPaymentStep(step) && !step.ApiReserve?
    ensures !Charges(PaymentMove(db, step))
  {
  }

  lemma MoveChargesNothing(db: Db, m: Move, d: Db)
    requires Makes(db, m, d) && !Charges(m)
    ensures d.charges == db.charges
  {
    MovedCharges(db, m);
  }

  lemma OtherPaymentStepCharges(db: Db, step: Step)
    requires Mirrored(db) && PapersOk(db) && IsPaymentStep(step) && !step.ApiReserve?
    ensures ChargesExactly(db, Commit(db, PaymentTxn(db, step)), step)
  {
    PaymentTxnMoves(db, step);
    OtherPaymentMoveCharges(db, step);
    MoveChargesNothing(db, PaymentMove(db, step), Commit(db, PaymentTxn(db, step)));
  }

  lemma ClearingMoveCharges(db: Db, step: Step)
    requires IsSettlementStep(step)
    ensures !Charges(ClearingMove(db, step))
  {
  }

  lemma ApiSettlementStepCharges(db: Db, step: Step)
    requires Mirrored(db) && IsApiSettlementStep(step)
    ensures ChargesExactly(db, Commit(db, ApiSettlementTxn(db, step)), step)
  {
    ApiSettlementMoves(db, step);
    ClearingMoveCharges(db, step);
    MoveChargesNothing(db, ClearingMove(db, step), Commit(db, ApiSettlementTxn(db, step)));
  }

  lemma BankStepCharges(db: Db, step: Step)
    requires Mirrored(db) && IsBankStep(step)
    ensures ChargesExactly(db, Commit(db, BankTxn(db, step)), step)
  {
    BankMoves(db, step);
    ClearingMoveCharges(db, step);
    MoveChargesNothing(db, ClearingMove(db, step), Commit(db, BankTxn(db, step)));
  }

  /** A validation decides a RECEIVED payment, and moves nothing else. */
  predicate Decides(m: Move, id: PaymentId, received: bool) {
    if received then m == AdmitDebit(id) || m == AdmitCredit(id) || (m.Decide? && m.id == id && m.code.Some?)
    else m.Stay?
  }

  lemma ValidationDecides(db: Db, key: EventKey, t: nat, seen: MerchantStatus)
    requires Mirrored(db) && PapersOk(db) && ValidateTxn(db, key, t, seen).Ok?
    ensures Decides(ValidationMove(db, key, t, seen), key.id, HasStatus(db, key.id, Received))
  {
  }

  predicate SamePaymentTables(d: Db, e: Db) {
    d.payments == e.payments && d.holds == e.holds && d.charges == e.charges
  }

  lemma ReclaimingKeepsPayments(db: Db, key: EventKey, t: nat, seen: MerchantStatus, m: Move)
    requires Validates(db, key, t, seen, m)
    ensures SamePaymentTables(Commit(db, ValidateTxn(db, key, t, seen)), Moved(db, m))
  {
  }

  lemma DecisionCharges(db: Db, d: Db, id: PaymentId, m: Move)
    requires Metered(db) && Enabled(db, m) && Decides(m, id, HasStatus(db, id, Received))
    requires SamePaymentTables(d, Moved(db, m))
    ensures var admits := HasStatus(db, id, Received) && HasStatus(d, id, Validated);
            && d.charges == db.charges + (if admits then [id] else [])
            && (admits ==> id !in db.charges
                           && (d.payments[id].details.direction.Credit? ==> id !in db.holds && id in d.holds))
  {
    MovedCharges(db, m);
    if HasStatus(db, id, Received) {
      ReceivedIsUncharged(db, id);
    }
  }

  lemma ValidationCharges(db: Db, key: EventKey, t: nat, seen: MerchantStatus)
    requires Mirrored(db) && PapersOk(db) && Metered(db)
    ensures ChargesExactly(db, Commit(db, ValidateTxn(db, key, t, seen)), ValidateReceived(key, t, seen))
  {
    if ValidateTxn(db, key, t, seen).Ok? {
      var m := ValidationMove(db, key, t, seen);
      ValidationMoves(db, key, t, seen);
      ValidationDecides(db, key, t, seen);
      ReclaimingKeepsPayments(db, key, t, seen, m);
      DecisionCharges(db, Commit(db, ValidateTxn(db, key, t, seen)), key.id, m);
    }
  }

  lemma MaterialisationCharges(db: Db, key: EventKey, t: nat)
    ensures Commit(db, MaterialiseTxn(db, key, t)).charges == db.charges
  {
  }

  lemma HandlerStepCharges(db: Db, step: Step)
    requires Mirrored(db) && PapersOk(db) && Metered(db) && IsHandlerStep(step)
    ensures ChargesExactly(db, Commit(db, HandlerTxn(db, step)), step)
  {
    match step
    case ValidateReceived(key, t, seen) => ValidationCharges(db, key, t, seen);
    case MaterialiseWebhooks(key, t) => MaterialisationCharges(db, key, t);
  }

  lemma PaymentStepCharges(db: Db, step: Step)
    requires Mirrored(db) && PapersOk(db) && Metered(db) && IsPaymentStep(step)
    ensures ChargesExactly(db, Commit(db, PaymentTxn(db, step)), step)
  {
    if step.ApiReserve? {
      ReserveCharges(db, step.id);
    } else {
      OtherPaymentStepCharges(db, step);
    }
  }

  lemma SettingStepCharges(db: Db, step: Step)
    requires IsSettingStep(step)
    ensures ChargesExactly(db, Commit(db, SettingTxn(db, step)), step)
  {
    if step.ProvisionFunding? {
      Announcements.ProvisionOnlyFunds(db, step.a, step.amount);
    } else {
      SettingKeepsBooks(db, step);
    }
  }

  /** Every step charges exactly the payment that it admits, which had not been charged; other steps charge none. */
  lemma StepCharges(db: Db, d: Db, step: Step, maxAttempts: nat)
    requires Mirrored(db) && PapersOk(db) && Metered(db) && d == Next(db, step, maxAttempts)
    ensures ChargesExactly(db, d, step)
  {
    if IsPaymentStep(step) {
      PaymentStepCharges(db, step);
    } else if IsApiSettlementStep(step) {
      ApiSettlementStepCharges(db, step);
    } else if IsBankStep(step) {
      BankStepCharges(db, step);
    } else if IsHandlerStep(step) {
      HandlerStepCharges(db, step);
    } else if IsSettingStep(step) {
      SettingStepCharges(db, step);
    }
  }

  // ---------- Debits that the API validates ----------

  /** A debit that left RECEIVED without being charged. */
  predicate UnchargedDebit(db: Db, id: PaymentId) {
    && id in db.payments && db.payments[id].details.direction.Debit? && !db.payments[id].status.Received?
    && id !in db.charges
  }

  lemma HoldsAreCredits(db: Db, id: PaymentId)
    requires Mirrored(db) && id in db.payments && db.payments[id].details.direction.Debit?
    ensures id !in db.holds
  {
    SliceOf(db, id);
  }

  lemma UnchargedStaysUncharged(db: Db, d: Db, step: Step, id: PaymentId)
    requires UnchargedDebit(db, id) && ChargesExactly(db, d, step) && Mirrored(d)
    requires PaymentsPersist(db.payments, d.payments)
    ensures UnchargedDebit(d, id)
  {
    assert PaymentPersists(db.payments[id], d.payments[id]);
    HoldsAreCredits(d, id);
  }

  lemma NextStaysUncharged(db: Db, d: Db, step: Step, id: PaymentId, maxAttempts: nat)
    requires Inv(db, maxAttempts) && maxAttempts >= 1 && d == Next(db, step, maxAttempts) && UnchargedDebit(db, id)
    ensures UnchargedDebit(d, id)
  {
    StepKeepsInv(db, step, maxAttempts);
    StepIsLater(db, step, maxAttempts);
    StepCharges(db, d, step, maxAttempts);
    UnchargedStaysUncharged(db, d, step, id);
  }

  lemma {:induction false} NeverChargedLater(db: Db, steps: seq<Step>, id: PaymentId, maxAttempts: nat)
    requires Inv(db, maxAttempts) && maxAttempts >= 1 && UnchargedDebit(db, id)
    ensures UnchargedDebit(System.Run(db, steps, maxAttempts), id)
    decreases |steps|
  {
    if steps != [] {
      var before := System.Run(db, steps[..|steps| - 1], maxAttempts);
      NeverChargedLater(db, steps[..|steps| - 1], id, maxAttempts);
      RunIsLater(db, steps[..|steps| - 1], maxAttempts);
      NextStaysUncharged(before, System.Run(db, steps, maxAttempts), steps[|steps| - 1], id, maxAttempts);
    }
  }

  lemma VerdictLeavesUncharged(db: Db, id: PaymentId)
    requires HasStatus(db, id, Received) && db.payments[id].details.direction.Debit? && id !in db.charges
    ensures UnchargedDebit(ToVerdict(db, id, None), id)
  {
  }

  lemma ApiValidationLeavesUncharged(db: Db, id: PaymentId)
    requires Mirrored(db) && PapersOk(db) && Metered(db)
    requires HasStatus(db, id, Received) && db.payments[id].details.direction.Debit?
    ensures var r := Engine.Validate(db, id); r.Ok? ==> UnchargedDebit(r.value, id)
  {
    ReceivedIsUncharged(db, id);
    ValidateMoves(db, id);
    VerdictLeavesUncharged(db, id);
  }

  /** A debit that the API validates is charged neither then nor later; the module DailyLimits says what that makes of
      the limit. */
  lemma ApiDebitIsNeverCharged(db: Db, d: Db, steps: seq<Step>, id: PaymentId, maxAttempts: nat)
    requires Reachable(db, maxAttempts) && maxAttempts >= 1
    requires HasStatus(db, id, Received) && db.payments[id].details.direction.Debit?
    requires Engine.Validate(db, id) == Ok(d)
    ensures id !in System.Run(d, steps, maxAttempts).charges
  {
    Theorems.ReachableIsSafe(db, maxAttempts);
    ApiValidationLeavesUncharged(db, id);
    StepKeepsInv(db, ApiValidate(id), maxAttempts);
    NeverChargedLater(d, steps, id, maxAttempts);
  }
}
