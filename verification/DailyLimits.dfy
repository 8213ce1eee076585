/** What the daily limit bounds: the payments that were accepted, and which of them the usage counts. */
module DailyLimits {
  import opened Store
  import opened OutboxProtocol
  import opened MapSums
  import opened Effects
  import opened Metering
  import opened Records
  import opened Invariants
  import opened Agreement
  import opened Safety
  import opened History
  import opened System
  import opened Moves
  import opened Charging
  import opened Witnesses
  import opened Database
  import Exports
  import Rendering
  import Announcements
  import Theorems
  import Worker = WorkerLifecycle
  import Engine = PaymentEngine

  // ---------- Accepted payments ----------

  /** A debit is accepted once it has passed a validation, a credit once its funds are reserved. */
  predicate IsAccepted(id: PaymentId, p: Payment, holds: Effects.Holds) {
    if p.details.direction.Debit? then !p.status.Received? && !p.status.ValidationFailed? else id in holds
  }

  function Accepted(ps: Effects.Payments, holds: Effects.Holds): set<PaymentId> {
    set id | id in ps && IsAccepted(id, ps[id], holds)
  }

  /** The amount of a payment of this merchant and business day. */
  ghost function ChargeOn(m: MerchantId, day: int): Payment -> int {
    (p: Payment) => if p.details.merchantId == m && BusinessDate(p) == day then p.details.amount else 0
  }

  /** The accepted payments of a merchant and day, summed. */
  ghost function AcceptedTotal(db: Db, m: MerchantId, day: int): int {
    Sum(Restrict(db.payments, Accepted(db.payments, db.holds)), ChargeOn(m, day))
  }

  // ---------- Which moves accept ----------

  /** The payment that a move accepts. */
  ghost function MoveAccepts(db: Db, m: Move): Option<PaymentId>
    requires Enabled(db, m)
  {
    if Charges(m) || (m.Decide? && m.code.None? && db.payments[m.id].details.direction.Debit?) then Some(m.id) else None
  }

  /** One more accepted payment, or none. */
  ghost predicate Accepts(db: Db, d: Db, one: Option<PaymentId>) {
    && Accepted(d.payments, d.holds)
       == Accepted(db.payments, db.holds) + (if one.Some? then {one.value} else {})
    && (one.Some? ==> one.value in db.payments && one.value !in Accepted(db.payments, db.holds))
  }

  /** Rewriting one payment and perhaps its reservation. */
  lemma OneRewritten(ps: Effects.Payments, hs: Effects.Holds, qs: Effects.Payments, later: Effects.Holds, id: PaymentId)
    requires id in ps && id in qs && qs == ps[id := qs[id]] && hs.Keys - {id} == later.Keys - {id}
    ensures Accepted(qs, later) - {id} == Accepted(ps, hs) - {id}
  {
    assert forall x | x != id :: x in hs <==> x in hs.Keys - {id};
    assert forall x | x != id :: x in later <==> x in later.Keys - {id};
  }

  /** What a move on one payment does to it. */
  ghost predicate Rewrites(db: Db, d: Db, id: PaymentId) {
    && id in db.payments && id in d.payments && d.payments == db.payments[id := d.payments[id]]
    && db.holds.Keys - {id} == d.holds.Keys - {id}
  }

  lemma RewritingAccepts(db: Db, d: Db, id: PaymentId, accepts: bool)
    requires Rewrites(db, d, id)
    requires IsAccepted(id, d.payments[id], d.holds) == (accepts || IsAccepted(id, db.payments[id], db.holds))
    requires accepts ==> !IsAccepted(id, db.payments[id], db.holds)
    ensures Accepts(db, d, if accepts then Some(id) else None)
  {
    OneRewritten(db.payments, db.holds, d.payments, d.holds, id);
    var before, after := Accepted(db.payments, db.holds), Accepted(d.payments, d.holds);
    assert before == (before - {id}) + (if id in before then {id} else {});
    assert after == (after - {id}) + (if id in after then {id} else {});
    assert id in before <==> IsAccepted(id, db.payments[id], db.holds);
    assert id in after <==> IsAccepted(id, d.payments[id], d.holds);
  }

  lemma VerdictAccepts(db: Db, id: PaymentId, code: Option<string>)
    requires HasStatus(db, id, Received) && id !in db.holds
    ensures Accepts(db, ToVerdict(db, id, code),
                    if code.None? && db.payments[id].details.direction.Debit? then Some(id) else None)
  {
    RewritingAccepts(db, ToVerdict(db, id, code), id, code.None? && db.payments[id].details.direction.Debit?);
  }

  lemma DebitAdmissionAccepts(db: Db, id: PaymentId)
    requires HasStatus(db, id, Received) && db.payments[id].details.direction.Debit?
    ensures Accepts(db, DebitAdmitted(db, id), Some(id))
  {
    RewritingAccepts(db, DebitAdmitted(db, id), id, true);
  }

  lemma ReservationAccepts(db: Db, id: PaymentId)
    requires id in db.payments && db.payments[id].details.direction.Credit? && id !in db.holds
    ensures Accepts(db, Admitted(db, id), Some(id))
  {
    assert Admitted(db, id).payments == db.payments[id := db.payments[id]];
    RewritingAccepts(db, Admitted(db, id), id, true);
  }

  lemma CreditAdmissionAccepts(db: Db, id: PaymentId)
    requires HasStatus(db, id, Received) && db.payments[id].details.direction.Credit? && id !in db.holds
    ensures Accepts(db, Admitted(ToVerdict(db, id, None), id), Some(id))
  {
    VerdictAccepts(db, id, None);
    ReservationAccepts(ToVerdict(db, id, None), id);
  }

  lemma ClearedKeepsAccepted(db: Db, d: Db, id: PaymentId)
    requires Rewrites(db, d, id) && d.payments[id].details == db.payments[id].details
    requires !db.payments[id].status.Received? && !db.payments[id].status.ValidationFailed?
    requires !d.payments[id].status.Received? && !d.payments[id].status.ValidationFailed?
    requires id in d.holds <==> id in db.holds
    ensures Accepts(db, d, None)
  {
    RewritingAccepts(db, d, id, false);
  }

  predicate HeldOk(db: Db, id: PaymentId) {
    id in db.holds ==> id in db.payments && HoldOk(db.payments[id], db.holds[id])
  }

  lemma HoldClearingAccepts(db: Db, m: Move)
    requires Enabled(db, m) && (m.FreeHold? || m.SettleCredit? || m.ReturnCredit?) && HeldOk(db, m.id)
    ensures Accepts(db, Moved(db, m), None)
  {
    assert m.FreeHold? ==> db.payments[m.id := db.payments[m.id]] == db.payments;
    ClearedKeepsAccepted(db, Moved(db, m), m.id);
  }

  lemma DebitClearingAccepts(db: Db, m: Move)
    requires Enabled(db, m) && (m.SettleDebit? || m.ReturnDebit?)
    ensures Accepts(db, Moved(db, m), None)
  {
    ClearedKeepsAccepted(db, Moved(db, m), m.id);
  }

  lemma InsertAccepts(db: Db, m: Move)
    requires Enabled(db, m) && m.Insert? && m.id !in db.holds
    ensures Accepts(db, Moved(db, m), None)
  {
  }

  lemma SubmittedAccepted(ps: Effects.Payments, hs: Effects.Holds, ids: set<PaymentId>, n: nat)
    requires forall id | id in ids :: id in ps && ps[id].status.Validated?
    ensures Accepted(Exports.MarkSubmitted(ps, ids, n), hs) == Accepted(ps, hs)
  {
  }

  lemma SubmittedTablesAccept(db: Db, d: Db, ids: set<PaymentId>)
    requires forall id | id in ids :: id in db.payments && db.payments[id].status.Validated?
    requires d.payments == Exports.MarkSubmitted(db.payments, ids, |db.files|) && d.holds == db.holds
    ensures Accepts(db, d, None)
  {
    SubmittedAccepted(db.payments, db.holds, ids, |db.files|);
  }

  lemma SubmitAccepts(db: Db, m: Move)
    requires Enabled(db, m) && m.Submit?
    ensures Accepts(db, Moved(db, m), None)
  {
    SubmitTables(db, m);
    SubmittedTablesAccept(db, Moved(db, m), m.ids);
  }

  lemma DecisionAccepts(db: Db, m: Move)
    requires Enabled(db, m) && (m.Decide? || m.AdmitDebit? || m.AdmitCredit? || m.ReserveCredit?)
    requires HasStatus(db, m.id, Received) ==> m.id !in db.holds
    ensures Accepts(db, Moved(db, m), MoveAccepts(db, m))
  {
    match m
    case Decide(id, code) => VerdictAccepts(db, id, code);
    case AdmitDebit(id) => DebitAdmissionAccepts(db, id);
    case AdmitCredit(id) => CreditAdmissionAccepts(db, id);
    case ReserveCredit(id) => ReservationAccepts(db, id);
  }

  /** Each move accepts at most one payment, which was not accepted before. */
  lemma MovedAccepts(db: Db, m: Move)
    requires Mirrored(db) && Enabled(db, m)
    ensures Accepts(db, Moved(db, m), MoveAccepts(db, m))
  {
    if m.Submit? {
      SubmitAccepts(db, m);
    } else if !m.Stay? {
      SliceOf(db, m.id);
      OneMoveAccepts(db, m);
    }
  }

  lemma OneMoveAccepts(db: Db, m: Move)
    requires Enabled(db, m) && !m.Submit? && !m.Stay? && HeldOk(db, m.id)
    ensures Accepts(db, Moved(db, m), MoveAccepts(db, m))
  {
    if m.Insert? {
      InsertAccepts(db, m);
    } else if m.SettleDebit? || m.ReturnDebit? {
      DebitClearingAccepts(db, m);
    } else if Clearing(m) {
      HoldClearingAccepts(db, m);
    } else {
      DecisionAccepts(db, m);
    }
  }

  // ---------- Which steps accept ----------

  /** The worker's validation will accept: the handler is live and before its validation, the claim is current, and
      the rules on what it read, the limit and the funds let the payment pass. */
  ghost predicate WorkerPasses(db: Db, key: EventKey, t: nat, seen: MerchantStatus) {
    && IsReceived(key) && HandlerAt(db, key, t, AtStart) && db.outbox[key].claim.status.Processing?
    && HasStatus(db, key.id, Received) && db.payments[key.id].details.merchantId in db.merchants
    && SeenVerdict(db, key.id, seen).Pass? && Worker.Decide(db, key.id).Pass?
  }

  /** The API will validate a debit: it is RECEIVED and meets the requirements. */
  predicate ApiPassesDebit(db: Db, id: PaymentId) {
    Engine.ReadPasses(db, id) && db.payments[id].details.direction.Debit?
  }

  /** The payment that a step is about to accept, read off the state before it. */
  ghost function WillAccept(db: Db, step: Step): Option<PaymentId> {
    match step
    case ApiReserve(id) => if Reserves(db, id) then Some(id) else None
    case ApiValidate(id) => if ApiPassesDebit(db, id) then Some(id) else None
    case ValidateReceived(key, t, seen) => if WorkerPasses(db, key, t, seen) then Some(key.id) else None
    case _ => None
  }

  /** What accepting does to the accepted payments and to the charges. */
  ghost predicate Follows(db: Db, d: Db, one: Option<PaymentId>, charged: bool) {
    && Accepts(db, d, one)
    && d.charges == db.charges + (if one.Some? && charged then [one.value] else [])
  }

  lemma SameTablesFollow(db: Db, d: Db)
    requires SamePaymentTables(d, db)
    ensures Follows(db, d, None, true)
  {
  }

  lemma ReserveAccepts(db: Db, id: PaymentId)
    requires Mirrored(db) && PapersOk(db)
    ensures Follows(db, Commit(db, Engine.Reserve(db, id)), WillAccept(db, ApiReserve(id)), true)
  {
    var m := ReserveMove(db, id);
    ReserveMoves(db, id);
    MovedAccepts(db, m);
    MovedCharges(db, m);
  }

  lemma ValidateMoveAccepts(db: Db, id: PaymentId)
    requires Mirrored(db) && PapersOk(db)
    ensures Enabled(db, ValidateMove(db, id))
    ensures MoveAccepts(db, ValidateMove(db, id)) == WillAccept(db, ApiValidate(id)) && !Charges(ValidateMove(db, id))
  {
    if id in db.payments {
      MerchantIsKnown(db, id);
      EngineValidateIs(db, id);
    }
  }

  lemma UnchargedMoveFollows(db: Db, m: Move, d: Db, one: Option<PaymentId>)
    requires Mirrored(db) && Makes(db, m, d) && !Charges(m) && MoveAccepts(db, m) == one
    ensures Follows(db, d, one, false)
  {
    MovedAccepts(db, m);
    MovedCharges(db, m);
  }

  lemma ApiValidateAccepts(db: Db, id: PaymentId)
    requires Mirrored(db) && PapersOk(db)
    ensures Follows(db, Commit(db, Engine.Validate(db, id)), WillAccept(db, ApiValidate(id)), false)
  {
    ValidateMoves(db, id);
    ValidateMoveAccepts(db, id);
    UnchargedMoveFollows(db, ValidateMove(db, id), Commit(db, Engine.Validate(db, id)), WillAccept(db, ApiValidate(id)));
  }

  lemma MoveWithoutAccepting(db: Db, m: Move, d: Db)
    requires Mirrored(db) && Makes(db, m, d) && MoveAccepts(db, m).None?
    ensures Follows(db, d, None, true)
  {
    MovedAccepts(db, m);
    MovedCharges(db, m);
  }

  lemma PaymentMoveAcceptsNothing(db: Db, step: Step)
    requires IsPaymentStep(step) && !step.ApiReserve? && !step.ApiValidate? && Enabled(db, PaymentMove(db, step))
    ensures MoveAccepts(db, PaymentMove(db, step)).None?
  {
  }

  lemma PaymentStepAccepts(db: Db, step: Step)
    requires Mirrored(db) && PapersOk(db) && IsPaymentStep(step)
    ensures Follows(db, Commit(db, PaymentTxn(db, step)), WillAccept(db, step), !step.ApiValidate?)
  {
    if step.ApiReserve? {
      ReserveAccepts(db, step.id);
    } else if step.ApiValidate? {
      ApiValidateAccepts(db, step.id);
    } else {
      PaymentTxnMoves(db, step);
      PaymentMoveAcceptsNothing(db, step);
      MoveWithoutAccepting(db, PaymentMove(db, step), Commit(db, PaymentTxn(db, step)));
    }
  }

  lemma ClearingMoveAcceptsNothing(db: Db, step: Step)
    requires IsSettlementStep(step) && Enabled(db, ClearingMove(db, step))
    ensures MoveAccepts(db, ClearingMove(db, step)).None?
  {
  }

  lemma ApiSettlementAccepts(db: Db, step: Step)
    requires Mirrored(db) && IsApiSettlementStep(step)
    ensures Follows(db, Commit(db, ApiSettlementTxn(db, step)), None, true)
  {
    ApiSettlementMoves(db, step);
    ClearingMoveAcceptsNothing(db, step);
    MoveWithoutAccepting(db, ClearingMove(db, step), Commit(db, ApiSettlementTxn(db, step)));
  }

  lemma BankAccepts(db: Db, step: Step)
    requires Mirrored(db) && IsBankStep(step)
    ensures Follows(db, Commit(db, BankTxn(db, step)), None, true)
  {
    BankMoves(db, step);
    ClearingMoveAcceptsNothing(db, step);
    MoveWithoutAccepting(db, ClearingMove(db, step), Commit(db, BankTxn(db, step)));
  }

  /** The transaction completes the event exactly under a current claim. */
  lemma DecisionCompletes(db: Db, key: EventKey)
    requires IsReceived(key) && Untouched(db, key.id) && key in db.outbox
    ensures var r := Worker.ReserveDailyUsageAndTransition(db, key.id, key);
            && (r.Ok? <==> db.outbox[key].claim.status.Processing?)
            && (r.Ok? ==> key in r.value.outbox)
  {
    DecisionIs(db, key.id, key);
    Theorems.DecisionKeepsRow(db, key.id, key);
    assert Theorems.RowAt(DecisionEffect(db, key.id), key) == Some(db.outbox[key]);
  }

  lemma PassingCommits(db: Db, key: EventKey, t: nat, seen: MerchantStatus)
    requires Mirrored(db) && PapersOk(db) && IsReceived(key) && HandlerAt(db, key, t, AtStart)
    requires HasStatus(db, key.id, Received) && SeenVerdict(db, key.id, seen).Pass?
    ensures ValidateTxn(db, key, t, seen).Ok? <==> db.outbox[key].claim.status.Processing?
  {
    MerchantIsKnown(db, key.id);
    ReceivedIsUntouched(db, key.id);
    DecisionCompletes(db, key);
  }

  /** A committed validation of a RECEIVED payment accepts exactly when the rules and the decision let it pass. */
  lemma CommittedMoveAccepts(db: Db, key: EventKey, t: nat, seen: MerchantStatus)
    requires Mirrored(db) && PapersOk(db) && ValidateTxn(db, key, t, seen).Ok? && HasStatus(db, key.id, Received)
    requires db.payments[key.id].details.merchantId in db.merchants && Enabled(db, ValidationMove(db, key, t, seen))
    ensures var m := ValidationMove(db, key, t, seen);
            && MoveAccepts(db, m) == (if SeenVerdict(db, key.id, seen).Pass? && Worker.Decide(db, key.id).Pass?
                                      then Some(key.id) else None)
            && (MoveAccepts(db, m).Some? ==> Charges(m))
  {
  }

  lemma CommittedPasses(db: Db, key: EventKey, t: nat, seen: MerchantStatus)
    requires Mirrored(db) && PapersOk(db) && ValidateTxn(db, key, t, seen).Ok? && HasStatus(db, key.id, Received)
    ensures db.payments[key.id].details.merchantId in db.merchants
    ensures WorkerPasses(db, key, t, seen) <==> SeenVerdict(db, key.id, seen).Pass? && Worker.Decide(db, key.id).Pass?
  {
    MerchantIsKnown(db, key.id);
    if SeenVerdict(db, key.id, seen).Pass? {
      PassingCommits(db, key, t, seen);
    }
  }

  lemma RolledBackPassesNot(db: Db, key: EventKey, t: nat, seen: MerchantStatus)
    requires Mirrored(db) && PapersOk(db) && ValidateTxn(db, key, t, seen).Err?
    ensures !WorkerPasses(db, key, t, seen)
  {
    if WorkerPasses(db, key, t, seen) {
      PassingCommits(db, key, t, seen);
    }
  }

  lemma CommittedWillAccept(db: Db, key: EventKey, t: nat, seen: MerchantStatus)
    requires Mirrored(db) && PapersOk(db) && ValidateTxn(db, key, t, seen).Ok? && HasStatus(db, key.id, Received)
    ensures db.payments[key.id].details.merchantId in db.merchants
    ensures WillAccept(db, ValidateReceived(key, t, seen))
         == if SeenVerdict(db, key.id, seen).Pass? && Worker.Decide(db, key.id).Pass? then Some(key.id) else None
  {
    CommittedPasses(db, key, t, seen);
  }

  lemma ReceivedMoveAccepts(db: Db, key: EventKey, t: nat, seen: MerchantStatus, m: Move)
    requires Mirrored(db) && PapersOk(db) && ValidateTxn(db, key, t, seen).Ok? && HasStatus(db, key.id, Received)
    requires m == ValidationMove(db, key, t, seen) && Enabled(db, m)
    ensures MoveAccepts(db, m) == WillAccept(db, ValidateReceived(key, t, seen))
    ensures MoveAccepts(db, m).Some? ==> Charges(m)
  {
    CommittedWillAccept(db, key, t, seen);
    CommittedMoveAccepts(db, key, t, seen);
  }

  lemma DecidedMoveAccepts(db: Db, key: EventKey, t: nat, seen: MerchantStatus)
    requires Mirrored(db) && PapersOk(db) && ValidateTxn(db, key, t, seen).Ok? && !HasStatus(db, key.id, Received)
    ensures ValidationMove(db, key, t, seen).Stay? && WillAccept(db, ValidateReceived(key, t, seen)).None?
  {
  }

  lemma ValidationMoveAccepts(db: Db, key: EventKey, t: nat, seen: MerchantStatus, m: Move)
    requires Mirrored(db) && PapersOk(db) && ValidateTxn(db, key, t, seen).Ok?
    requires m == ValidationMove(db, key, t, seen) && Enabled(db, m)
    ensures MoveAccepts(db, m) == WillAccept(db, ValidateReceived(key, t, seen))
    ensures MoveAccepts(db, m).Some? ==> Charges(m)
  {
    if HasStatus(db, key.id, Received) {
      ReceivedMoveAccepts(db, key, t, seen, m);
    } else {
      DecidedMoveAccepts(db, key, t, seen);
    }
  }

  lemma ChargingMoveFollows(db: Db, m: Move, d: Db, one: Option<PaymentId>)
    requires Mirrored(db) && Enabled(db, m) && SamePaymentTables(d, Moved(db, m))
    requires MoveAccepts(db, m) == one && (one.Some? ==> Charges(m))
    ensures Follows(db, d, one, true)
  {
    MovedAccepts(db, m);
    MovedCharges(db, m);
  }

  lemma WorkerAccepts(db: Db, key: EventKey, t: nat, seen: MerchantStatus)
    requires Mirrored(db) && PapersOk(db)
    ensures Follows(db, Commit(db, ValidateTxn(db, key, t, seen)), WillAccept(db, ValidateReceived(key, t, seen)), true)
  {
    if ValidateTxn(db, key, t, seen).Ok? {
      var m := ValidationMove(db, key, t, seen);
      ValidationMoves(db, key, t, seen);
      ValidationMoveAccepts(db, key, t, seen, m);
      ReclaimingKeepsPayments(db, key, t, seen, m);
      ChargingMoveFollows(db, m, Commit(db, ValidateTxn(db, key, t, seen)),
                          WillAccept(db, ValidateReceived(key, t, seen)));
    } else {
      RolledBackPassesNot(db, key, t, seen);
      SameTablesFollow(db, db);
    }
  }

  // ---------- The other steps ----------

  lemma MaterialisingKeepsPayments(db: Db, key: EventKey, t: nat)
    ensures SamePaymentTables(Commit(db, MaterialiseTxn(db, key, t)), db)
  {
  }

  lemma HandlerStepAccepts(db: Db, step: Step)
    requires Mirrored(db) && PapersOk(db) && IsHandlerStep(step)
    ensures Follows(db, Commit(db, HandlerTxn(db, step)), WillAccept(db, step), true)
  {
    match step
    case ValidateReceived(key, t, seen) => WorkerAccepts(db, key, t, seen);
    case MaterialiseWebhooks(key, t) =>
      MaterialisingKeepsPayments(db, key, t);
      SameTablesFollow(db, Commit(db, MaterialiseTxn(db, key, t)));
  }

  lemma MerchantTxnsKeepPayments(db: Db, m: MerchantId, profile: Profile, status: MerchantStatus)
    ensures Commit(db, OnboardTxn(db, m, profile)).payments == db.payments
    ensures Commit(db, MerchantStatusTxn(db, m, status)).payments == db.payments
  {
  }

  lemma SettingKeepsPayments(db: Db, step: Step)
    requires IsSettingStep(step)
    ensures SamePaymentTables(Commit(db, SettingTxn(db, step)), db)
  {
    if !step.ProvisionFunding? {
      SettingKeepsBooks(db, step);
    }
    match step
    case Onboard(m, profile) => MerchantTxnsKeepPayments(db, m, profile, Active);
    case SetMerchantStatus(m, status) => MerchantTxnsKeepPayments(db, m, Profile("", "", false, false, 0, 0), status);
    case SetAccount(a, status) =>
    case ProvisionFunding(a, amount) => Announcements.ProvisionOnlyFunds(db, a, amount);
    case SetEndpoint(e, m, isActive) => EndpointTxnsSetEndpoints(db, e, m, isActive);
    case RemoveEndpoint(e) => EndpointTxnsSetEndpoints(db, e, "", false);
    case SendWebhookTest(e, sentAt) =>
  }

  lemma SettingStepAccepts(db: Db, step: Step)
    requires IsSettingStep(step)
    ensures Follows(db, Commit(db, SettingTxn(db, step)), None, true)
  {
    SettingKeepsPayments(db, step);
    SameTablesFollow(db, Commit(db, SettingTxn(db, step)));
  }

  lemma ClaimStepAccepts(db: Db, key: EventKey, step: RowStep, maxAttempts: nat)
    ensures Follows(db, Commit(db, RowTxn(db, key, step, maxAttempts)), None, true)
  {
    SameTablesFollow(db, Commit(db, RowTxn(db, key, step, maxAttempts)));
  }

  /** Every step accepts exactly the payment that can be read off the state before it, and charges it unless the API
      validates a debit. */
  lemma StepAccepts(db: Db, d: Db, step: Step, maxAttempts: nat)
    requires Mirrored(db) && PapersOk(db) && d == Next(db, step, maxAttempts)
    ensures Follows(db, d, WillAccept(db, step), !step.ApiValidate?)
  {
    if IsPaymentStep(step) {
      PaymentStepAccepts(db, step);
    } else if IsApiSettlementStep(step) {
      ApiSettlementAccepts(db, step);
    } else if IsBankStep(step) {
      BankAccepts(db, step);
    } else if IsHandlerStep(step) {
      HandlerStepAccepts(db, step);
    } else if IsClaimStep(step) {
      ClaimStepAccepts(db, step.key, ClaimStep(step), maxAttempts);
    } else {
      SettingStepAccepts(db, step);
    }
  }

  // ---------- Totals ----------

  lemma {:induction false} ChargedIsSum(charges: seq<PaymentId>, ps: Effects.Payments, m: MerchantId, day: int)
    requires Distinct(charges) && forall i | 0 <= i < |charges| :: charges[i] in ps
    ensures Charged(charges, ps, m, day) == Sum(Restrict(ps, SetOf(charges)), ChargeOn(m, day))
    decreases |charges|
  {
    if charges == [] {
      assert Restrict(ps, SetOf(charges)) == map[];
    } else {
      var before, last := charges[..|charges| - 1], charges[|charges| - 1];
      ChargedIsSum(before, ps, m, day);
      RestrictOneMore(ps, charges);
      SumPut(Restrict(ps, SetOf(before)), ChargeOn(m, day), last, ps[last]);
    }
  }

  /** The accepted payments that were not charged. */
  function Uncounted(db: Db): set<PaymentId> {
    Accepted(db.payments, db.holds) - SetOf(db.charges)
  }

  ghost function UncountedTotal(db: Db, m: MerchantId, day: int): int {
    Sum(Restrict(db.payments, Uncounted(db)), ChargeOn(m, day))
  }

  lemma ChargedAreAccepted(db: Db)
    requires Metered(db)
    ensures SetOf(db.charges) <= Accepted(db.payments, db.holds)
    ensures forall i | 0 <= i < |db.charges| :: db.charges[i] in db.payments
  {
    forall id | id in db.charges ensures id in Accepted(db.payments, db.holds) {
      var i :| 0 <= i < |db.charges| && db.charges[i] == id;
      assert WasAdmitted(db.charges[i], db.payments, db.holds);
    }
  }

  lemma RestrictTwice(ps: Effects.Payments, accepted: set<PaymentId>, charged: set<PaymentId>)
    requires charged <= accepted
    ensures Restrict(Restrict(ps, accepted), charged) == Restrict(ps, charged)
    ensures Restrict(ps, accepted) - charged == Restrict(ps, accepted - charged)
  {
  }

  /** What was accepted is what the usage counts and what it does not. */
  lemma AcceptedIsUsageAndUncounted(db: Db, m: MerchantId, day: int)
    requires Metered(db)
    ensures AcceptedTotal(db, m, day) == Utilized(db.usage, m, day) + UncountedTotal(db, m, day)
  {
    var accepted, charged := Accepted(db.payments, db.holds), SetOf(db.charges);
    ChargedAreAccepted(db);
    ChargedIsSum(db.charges, db.payments, m, day);
    SumSplit(Restrict(db.payments, accepted), ChargeOn(m, day), charged);
    RestrictTwice(db.payments, accepted, charged);
  }

  /** Every accepted payment is charged; credits always are. */
  ghost predicate Counted(db: Db) {
    forall id | id in Accepted(db.payments, db.holds) :: id in db.charges
  }

  lemma UncountedIsEmpty(db: Db)
    ensures Counted(db) <==> Uncounted(db) == {}
  {
    assert forall id :: id in Uncounted(db) <==> id in Accepted(db.payments, db.holds) && id !in db.charges;
  }

  /** The credits among them are charged, so only debits can be missing. */
  lemma UncountedAreDebits(db: Db, id: PaymentId)
    requires HoldsCharged(db) && id in Uncounted(db)
    ensures UnchargedDebit(db, id) && !db.payments[id].status.ValidationFailed?
  {
  }

  lemma UncountedWeighs(db: Db, id: PaymentId)
    requires Mirrored(db) && id in Uncounted(db)
    ensures var d := db.payments[id]; UncountedTotal(db, d.details.merchantId, BusinessDate(d)) > 0
  {
    var p := db.payments[id];
    var m, day := p.details.merchantId, BusinessDate(p);
    var rest := Restrict(db.payments, Uncounted(db));
    SliceOf(db, id);
    SumTake(rest, ChargeOn(m, day), id);
    forall x | x in rest - {id} ensures ChargeOn(m, day)((rest - {id})[x]) >= 0 {
      SliceOf(db, x);
    }
    SumIsNonNegative(rest - {id}, ChargeOn(m, day));
  }

  /** The usage is what was accepted, for every merchant and day, exactly when no accepted debit is uncharged. */
  lemma UsageIsAcceptedIffCounted(db: Db)
    requires Mirrored(db) && Metered(db)
    ensures Counted(db) <==> forall m, day :: AcceptedTotal(db, m, day) == Utilized(db.usage, m, day)
  {
    UncountedIsEmpty(db);
    if Counted(db) {
      assert Restrict(db.payments, {}) == map[];
      forall m, day ensures AcceptedTotal(db, m, day) == Utilized(db.usage, m, day) {
        AcceptedIsUsageAndUncounted(db, m, day);
      }
    } else {
      var id :| id in Uncounted(db);
      var p := db.payments[id];
      UncountedWeighs(db, id);
      AcceptedIsUsageAndUncounted(db, p.details.merchantId, BusinessDate(p));
    }
  }

  /** What was accepted of a merchant on a day is within its daily limit. */
  ghost predicate WithinDaily(db: Db, m: MerchantId, day: int) {
    m in db.merchants ==> AcceptedTotal(db, m, day) <= db.merchants[m].profile.dailyAmountLimit
  }

  lemma CountedIsWithin(db: Db, m: MerchantId, day: int)
    requires Mirrored(db) && Metered(db) && Counted(db)
    ensures WithinDaily(db, m, day)
  {
    UsageIsAcceptedIffCounted(db);
    assert AcceptedTotal(db, m, day) == Utilized(db.usage, m, day);
  }

  // ---------- One step ----------

  /** The API is about to validate a debit. */
  predicate AddsUncounted(db: Db, step: Step) {
    step.ApiValidate? && ApiPassesDebit(db, step.id)
  }

  lemma FollowingStaysCounted(db: Db, d: Db, step: Step)
    requires Metered(db) && Counted(db) && Follows(db, d, WillAccept(db, step), !step.ApiValidate?)
    ensures Counted(d) <==> !AddsUncounted(db, step)
  {
    if AddsUncounted(db, step) {
      ReceivedIsUncharged(db, step.id);
      assert step.id in Accepted(d.payments, d.holds);
    }
  }

  /** One step leaves an accepted payment uncharged exactly when the API validates a debit. */
  lemma StepStaysCounted(db: Db, d: Db, step: Step, maxAttempts: nat)
    requires Mirrored(db) && PapersOk(db) && Metered(db) && Counted(db) && d == Next(db, step, maxAttempts)
    ensures Counted(d) <==> !AddsUncounted(db, step)
  {
    StepAccepts(db, d, step, maxAttempts);
    FollowingStaysCounted(db, d, step);
  }

  lemma FollowingCharges(db: Db, d: Db, step: Step, id: PaymentId)
    requires Metered(db) && Follows(db, d, WillAccept(db, step), !step.ApiValidate?)
    requires HasStatus(db, id, Received) && db.payments[id].details.direction.Debit?
    requires HasStatus(d, id, Validated) && d.payments[id].details == db.payments[id].details
    ensures id in d.charges <==> step != ApiValidate(id)
  {
    ReceivedIsUncharged(db, id);
    assert id in Accepted(d.payments, d.holds) && id !in Accepted(db.payments, db.holds);
  }

  /** A debit that passes a validation is charged by it exactly when it is not the API's. */
  lemma ValidatedDebitIsCharged(db: Db, d: Db, step: Step, id: PaymentId, maxAttempts: nat)
    requires Mirrored(db) && PapersOk(db) && Metered(db) && d == Next(db, step, maxAttempts)
    requires HasStatus(db, id, Received) && db.payments[id].details.direction.Debit? && HasStatus(d, id, Validated)
    ensures id in d.charges <==> step != ApiValidate(id)
  {
    StepAccepts(db, d, step, maxAttempts);
    StepIsLater(db, step, maxAttempts);
    assert PaymentPersists(db.payments[id], d.payments[id]);
    FollowingCharges(db, d, step, id);
  }

  /** What the accepted payment adds to a merchant's day. */
  ghost function Added(db: Db, one: Option<PaymentId>, m: MerchantId, day: int): int
    requires one.Some? ==> one.value in db.payments
  {
    if one.Some? then ChargeOn(m, day)(db.payments[one.value]) else 0
  }

  lemma SameWeights(ps: Effects.Payments, qs: Effects.Payments, ids: set<PaymentId>, m: MerchantId, day: int)
    requires PaymentsPersist(ps, qs) && ids <= ps.Keys
    ensures Sum(Restrict(qs, ids), ChargeOn(m, day)) == Sum(Restrict(ps, ids), ChargeOn(m, day))
  {
    forall id | id in Restrict(ps, ids)
      ensures ChargeOn(m, day)(Restrict(ps, ids)[id]) == ChargeOn(m, day)(Restrict(qs, ids)[id])
    {
      assert PaymentPersists(ps[id], qs[id]);
    }
    SumSame(Restrict(ps, ids), Restrict(qs, ids), ChargeOn(m, day));
  }

  lemma TotalGrows(db: Db, d: Db, one: Option<PaymentId>, m: MerchantId, day: int)
    requires Accepts(db, d, one) && PaymentsPersist(db.payments, d.payments)
    ensures AcceptedTotal(d, m, day) == AcceptedTotal(db, m, day) + Added(db, one, m, day)
  {
    var before, after := Accepted(db.payments, db.holds), Accepted(d.payments, d.holds);
    SameWeights(db.payments, d.payments, before, m, day);
    if one.Some? {
      var id := one.value;
      assert PaymentPersists(db.payments[id], d.payments[id]);
      assert Restrict(d.payments, after) == Restrict(d.payments, before)[id := d.payments[id]];
      SumPut(Restrict(d.payments, before), ChargeOn(m, day), id, d.payments[id]);
    } else {
      assert after == before;
    }
  }

  lemma AcceptedExists(db: Db, step: Step)
    requires Mirrored(db)
    ensures WillAccept(db, step).Some? ==> WillAccept(db, step).value in db.payments
  {
  }

  /** The step will accept more of the merchant's day than its limit leaves. */
  ghost predicate Exceeds(db: Db, step: Step, m: MerchantId, day: int) {
    && m in db.merchants && WillAccept(db, step).Some? && WillAccept(db, step).value in db.payments
    && AcceptedTotal(db, m, day) + Added(db, WillAccept(db, step), m, day)
       > db.merchants[m].profile.dailyAmountLimit
  }

  lemma UnknownMerchantHasNone(db: Db, m: MerchantId, day: int)
    requires PapersOk(db) && m !in db.merchants
    ensures AcceptedTotal(db, m, day) == 0
    ensures forall id | id in db.payments :: ChargeOn(m, day)(db.payments[id]) == 0
  {
    var rest := Restrict(db.payments, Accepted(db.payments, db.holds));
    SumWithout(rest, ChargeOn(m, day), {});
    assert Restrict(rest, {}) == map[];
  }

  lemma KnownStaysWithin(db: Db, d: Db, step: Step, m: MerchantId, day: int)
    requires Accepts(db, d, WillAccept(db, step)) && WithinDaily(db, m, day) && m in db.merchants && m in d.merchants
    requires d.merchants[m].profile == db.merchants[m].profile
    requires AcceptedTotal(d, m, day) == AcceptedTotal(db, m, day) + Added(db, WillAccept(db, step), m, day)
    ensures WithinDaily(d, m, day) <==> !Exceeds(db, step, m, day)
  {
  }

  lemma NewStaysWithin(db: Db, d: Db, step: Step, m: MerchantId, day: int)
    requires PapersOk(db) && Accepts(db, d, WillAccept(db, step)) && m !in db.merchants
    requires AcceptedTotal(d, m, day) == AcceptedTotal(db, m, day) + Added(db, WillAccept(db, step), m, day)
    ensures WithinDaily(d, m, day) && !Exceeds(db, step, m, day)
  {
    UnknownMerchantHasNone(db, m, day);
  }

  lemma TotalStaysWithin(db: Db, d: Db, step: Step, m: MerchantId, day: int)
    requires PapersOk(db) && Accepts(db, d, WillAccept(db, step)) && PaymentsPersist(db.payments, d.payments)
    requires Rendering.SameProfiles(db.merchants, d.merchants) && WithinDaily(db, m, day)
    ensures WithinDaily(d, m, day) <==> !Exceeds(db, step, m, day)
  {
    TotalGrows(db, d, WillAccept(db, step), m, day);
    if m in db.merchants {
      KnownStaysWithin(db, d, step, m, day);
    } else {
      NewStaysWithin(db, d, step, m, day);
    }
  }

  /** One step takes a merchant's day beyond its limit exactly when the payment it is about to accept does not fit
      what was accepted before. */
  lemma StepStaysWithinDaily(db: Db, d: Db, step: Step, m: MerchantId, day: int, maxAttempts: nat)
    requires Mirrored(db) && PapersOk(db) && d == Next(db, step, maxAttempts) && WithinDaily(db, m, day)
    ensures WithinDaily(d, m, day) <==> !Exceeds(db, step, m, day)
    ensures AcceptedTotal(d, m, day) == AcceptedTotal(db, m, day)
              + (if WillAccept(db, step).Some? && WillAccept(db, step).value in db.payments
                 then Added(db, WillAccept(db, step), m, day) else 0)
  {
    StepAccepts(db, d, step, maxAttempts);
    StepIsLater(db, step, maxAttempts);
    TotalGrows(db, d, WillAccept(db, step), m, day);
    TotalStaysWithin(db, d, step, m, day);
  }

  /** With every accepted payment charged, only the API's validation of a debit can do that. */
  lemma OnlyUncountedExceeds(db: Db, step: Step, m: MerchantId, day: int, maxAttempts: nat)
    requires Inv(db, maxAttempts) && maxAttempts >= 1 && Counted(db) && Exceeds(db, step, m, day)
    ensures AddsUncounted(db, step)
  {
    var d := Next(db, step, maxAttempts);
    CountedIsWithin(db, m, day);
    StepStaysWithinDaily(db, d, step, m, day, maxAttempts);
    StepStaysCounted(db, d, step, maxAttempts);
    StepKeepsInv(db, step, maxAttempts);
    if Counted(d) {
      CountedIsWithin(d, m, day);
    }
  }

  // ---------- Runs ----------

  ghost predicate AllCounted(states: seq<Db>) {
    forall i | 0 <= i < |states| :: Counted(states[i])
  }

  /** No step is the API's validation of a debit that passes. */
  ghost predicate NoneAddsUncounted(states: seq<Db>, steps: seq<Step>)
    requires |states| == |steps| + 1
  {
    forall i | 0 <= i < |steps| :: !AddsUncounted(states[i], steps[i])
  }

  lemma CountedAlong(states: seq<Db>, steps: seq<Step>)
    requires |states| == |steps| + 1 && Counted(states[0])
    requires forall j | 0 <= j < |steps| && Counted(states[j]) ::
               Counted(states[j + 1]) <==> !AddsUncounted(states[j], steps[j])
    ensures AllCounted(states) <==> NoneAddsUncounted(states, steps)
  {
    var flags := seq(|states|, i requires 0 <= i < |states| => Counted(states[i]));
    var bad := seq(|steps|, i requires 0 <= i < |steps| => AddsUncounted(states[i], steps[i]));
    System.LostByBadSteps(flags, bad);
    if AllCounted(states) {
      forall j | 0 <= j < |steps| ensures !AddsUncounted(states[j], steps[j]) {
        assert flags[j + 1] && !bad[j];
      }
    }
    if NoneAddsUncounted(states, steps) {
      assert forall j | 0 <= j < |bad| :: !bad[j];
      forall i | 0 <= i < |states| ensures Counted(states[i]) {
        assert flags[i];
      }
    }
  }

  ghost predicate AlwaysCounted(db: Db, steps: seq<Step>, maxAttempts: nat) {
    AllCounted(States(db, steps, maxAttempts))
  }

  ghost predicate NeverAddsUncounted(db: Db, steps: seq<Step>, maxAttempts: nat) {
    NoneAddsUncounted(States(db, steps, maxAttempts), steps)
  }

  lemma StateStaysCounted(db: Db, steps: seq<Step>, i: nat, maxAttempts: nat)
    requires Inv(db, maxAttempts) && maxAttempts >= 1 && i < |steps| && Counted(States(db, steps, maxAttempts)[i])
    ensures Counted(States(db, steps, maxAttempts)[i + 1]) <==>
            !AddsUncounted(States(db, steps, maxAttempts)[i], steps[i])
  {
    var states := States(db, steps, maxAttempts);
    StateIsSafe(db, steps, i, maxAttempts);
    System.NextState(db, steps, i, maxAttempts);
    StepStaysCounted(states[i], states[i + 1], steps[i], maxAttempts);
  }

  /** Every accepted payment is charged all along a run exactly when the API never validates a debit in it. */
  lemma RunStaysCounted(db: Db, steps: seq<Step>, maxAttempts: nat)
    requires Inv(db, maxAttempts) && maxAttempts >= 1 && Counted(db)
    ensures AlwaysCounted(db, steps, maxAttempts) <==> NeverAddsUncounted(db, steps, maxAttempts)
  {
    var states := States(db, steps, maxAttempts);
    forall j | 0 <= j < |steps| && Counted(states[j])
      ensures Counted(states[j + 1]) <==> !AddsUncounted(states[j], steps[j])
    {
      StateStaysCounted(db, steps, j, maxAttempts);
    }
    System.FirstState(db, steps, maxAttempts);
    CountedAlong(states, steps);
  }

  ghost predicate AllWithinDaily(states: seq<Db>, m: MerchantId, day: int) {
    forall i | 0 <= i < |states| :: WithinDaily(states[i], m, day)
  }

  ghost predicate NoneExceeds(states: seq<Db>, steps: seq<Step>, m: MerchantId, day: int)
    requires |states| == |steps| + 1
  {
    forall i | 0 <= i < |steps| :: !Exceeds(states[i], steps[i], m, day)
  }

  lemma WithinDailyAlong(states: seq<Db>, steps: seq<Step>, m: MerchantId, day: int)
    requires |states| == |steps| + 1 && WithinDaily(states[0], m, day)
    requires forall j | 0 <= j < |steps| && WithinDaily(states[j], m, day) ::
               WithinDaily(states[j + 1], m, day) <==> !Exceeds(states[j], steps[j], m, day)
    ensures AllWithinDaily(states, m, day) <==> NoneExceeds(states, steps, m, day)
  {
    var flags := seq(|states|, i requires 0 <= i < |states| => WithinDaily(states[i], m, day));
    var bad := seq(|steps|, i requires 0 <= i < |steps| => Exceeds(states[i], steps[i], m, day));
    System.LostByBadSteps(flags, bad);
    if AllWithinDaily(states, m, day) {
      forall j | 0 <= j < |steps| ensures !Exceeds(states[j], steps[j], m, day) {
        assert flags[j + 1] && !bad[j];
      }
    }
    if NoneExceeds(states, steps, m, day) {
      assert forall j | 0 <= j < |bad| :: !bad[j];
      forall i | 0 <= i < |states| ensures WithinDaily(states[i], m, day) {
        assert flags[i];
      }
    }
  }

  ghost predicate AlwaysWithinDaily(db: Db, steps: seq<Step>, m: MerchantId, day: int, maxAttempts: nat) {
    AllWithinDaily(States(db, steps, maxAttempts), m, day)
  }

  ghost predicate NeverExceeds(db: Db, steps: seq<Step>, m: MerchantId, day: int, maxAttempts: nat) {
    NoneExceeds(States(db, steps, maxAttempts), steps, m, day)
  }

  lemma StateStaysWithinDaily(db: Db, steps: seq<Step>, i: nat, m: MerchantId, day: int, maxAttempts: nat)
    requires Inv(db, maxAttempts) && maxAttempts >= 1 && i < |steps|
    requires WithinDaily(States(db, steps, maxAttempts)[i], m, day)
    ensures WithinDaily(States(db, steps, maxAttempts)[i + 1], m, day) <==>
            !Exceeds(States(db, steps, maxAttempts)[i], steps[i], m, day)
  {
    var states := States(db, steps, maxAttempts);
    StateIsSafe(db, steps, i, maxAttempts);
    System.NextState(db, steps, i, maxAttempts);
    StepStaysWithinDaily(states[i], states[i + 1], steps[i], m, day, maxAttempts);
  }

  /** What is accepted of a merchant's day stays within its limit along a run exactly when no step exceeds it. */
  lemma RunStaysWithinDaily(db: Db, steps: seq<Step>, m: MerchantId, day: int, maxAttempts: nat)
    requires Inv(db, maxAttempts) && maxAttempts >= 1 && WithinDaily(db, m, day)
    ensures AlwaysWithinDaily(db, steps, m, day, maxAttempts) <==> NeverExceeds(db, steps, m, day, maxAttempts)
  {
    var states := States(db, steps, maxAttempts);
    forall j | 0 <= j < |steps| && WithinDaily(states[j], m, day)
      ensures WithinDaily(states[j + 1], m, day) <==> !Exceeds(states[j], steps[j], m, day)
    {
      StateStaysWithinDaily(db, steps, j, m, day, maxAttempts);
    }
    System.FirstState(db, steps, maxAttempts);
    WithinDailyAlong(states, steps, m, day);
  }

  /** A run from a counted state in which the API validates no debit keeps every merchant's day within its limit. */
  lemma CountedRunIsWithin(db: Db, steps: seq<Step>, m: MerchantId, day: int, maxAttempts: nat)
    requires Inv(db, maxAttempts) && maxAttempts >= 1 && Counted(db) && NeverAddsUncounted(db, steps, maxAttempts)
    ensures AlwaysWithinDaily(db, steps, m, day, maxAttempts)
  {
    RunStaysCounted(db, steps, maxAttempts);
    forall i | 0 <= i < |States(db, steps, maxAttempts)| ensures WithinDaily(States(db, steps, maxAttempts)[i], m, day) {
      StateIsSafe(db, steps, i, maxAttempts);
      CountedIsWithin(States(db, steps, maxAttempts)[i], m, day);
    }
  }

  /** The empty database is a state from which these runs start. */
  lemma NothingIsCounted(m: MerchantId, day: int, maxAttempts: nat)
    ensures Inv(EMPTY, maxAttempts) && Counted(EMPTY) && WithinDaily(EMPTY, m, day)
  {
    EmptyDatabaseIsFine(maxAttempts);
  }

  // ---------- The limit is exceeded ----------

  lemma NothingAccepted(c: Case)
    requires c.direction.Debit?
    ensures AcceptedTotal(Asked(c), SHOP, 0) == 0
  {
    assert Accepted(Asked(c).payments, Asked(c).holds) == {};
    assert Restrict(Asked(c).payments, {}) == map[];
  }

  lemma VerdictTotals(c: Case)
    requires c.Valid() && c.direction.Debit?
    ensures AcceptedTotal(ToVerdict(Asked(c), "p", None), SHOP, 0) == c.amount
  {
    var d := ToVerdict(Asked(c), "p", None);
    NothingAccepted(c);
    VerdictAccepts(Asked(c), "p", None);
    assert PaymentsPersist(Asked(c).payments, d.payments);
    TotalGrows(Asked(c), d, Some("p"), SHOP, 0);
  }

  lemma VerdictIsUncharged(c: Case)
    requires c.direction.Debit?
    ensures var d := ToVerdict(Asked(c), "p", None);
            && UnchargedDebit(d, "p") && HasStatus(d, "p", Validated) && SHOP in d.merchants
            && d.merchants[SHOP].profile.dailyAmountLimit == c.daily
  {
  }

  /** The API lets a debit pass whatever the merchant's daily limit: some run accepts any amount under any limit. */
  lemma LimitIsExceeded(amount: nat, daily: nat, maxAttempts: nat)
    requires amount >= 1 && maxAttempts >= 1
    ensures exists db ::
              && Reachable(db, maxAttempts) && UnchargedDebit(db, "p") && HasStatus(db, "p", Validated)
              && SHOP in db.merchants && db.merchants[SHOP].profile.dailyAmountLimit == daily
              && AcceptedTotal(db, SHOP, 0) == amount
  {
    var c := Case(1, amount, daily, "n", Debit);
    ValidatedArrives(c, maxAttempts);
    VerdictIsUncharged(c);
    VerdictTotals(c);
  }
}
