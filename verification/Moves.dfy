/** Every transaction on a payment commits one of twelve changes, and what each change does to the available
    funds, to the outbox rows that exist already, and to the charged payments. */
module Moves {
  import opened Text
  import opened Store
  import opened OutboxProtocol
  import opened Funding
  import opened Effects
  import opened Mirroring
  import opened Balances
  import opened Invariants
  import opened Agreement
  import opened Safety
  import opened History
  import opened System
  import Exports
  import Creation
  import Worker = WorkerLifecycle
  import Engine = PaymentEngine

  datatype Move =
    | Stay
    | Insert(details: Details, clientKey: string, id: PaymentId, now: int)
    | Decide(id: PaymentId, code: Option<string>)
    | ReserveCredit(id: PaymentId)
    | AdmitDebit(id: PaymentId)
    | AdmitCredit(id: PaymentId)
    | FreeHold(id: PaymentId)
    | SettleCredit(id: PaymentId)
    | SettleDebit(id: PaymentId)
    | ReturnCredit(id: PaymentId, returnCode: string)
    | ReturnDebit(id: PaymentId, returnCode: string)
    | Submit(ids: set<PaymentId>, merchant: MerchantId, day: Day)

  predicate HasStatus(db: Db, id: PaymentId, status: PaymentStatus) {
    id in db.payments && db.payments[id].status == status
  }

  ghost predicate Enabled(db: Db, m: Move) {
    match m
    case Stay => true
    case Insert(_, _, id, _) => id !in db.payments
    case Decide(id, _) => HasStatus(db, id, Received)
    case ReserveCredit(id) =>
      HasStatus(db, id, Validated) && db.payments[id].details.direction.Credit? && id !in db.holds && Reservable(db, id)
    case AdmitDebit(id) =>
      Untouched(db, id) && db.payments[id].details.direction.Debit? && Worker.Decide(db, id).Pass?
    case AdmitCredit(id) =>
      Untouched(db, id) && db.payments[id].details.direction.Credit? && Worker.Decide(db, id).Pass?
    case FreeHold(id) => id in db.payments && id in db.holds && !db.holds[id].status.HoldReleased?
    case SettleCredit(id) => HasStatus(db, id, Submitted) && id in db.holds && db.holds[id].status.HoldActive?
    case SettleDebit(id) =>
      && HasStatus(db, id, Submitted) && db.payments[id].details.direction.Debit?
      && AccountUsable(db, AccountOf(db.payments[id].details))
    case ReturnCredit(id, _) => id in db.payments && id in db.holds && db.holds[id].status.HoldSettled?
    case ReturnDebit(id, _) => HasStatus(db, id, Settled) && db.payments[id].details.direction.Debit?
    case Submit(ids, _, _) =>
      && Exports.CanRender(db.payments, db.merchants, ids)
      && forall id | id in ids :: HasStatus(db, id, Validated)
  }

  ghost function Moved(db: Db, m: Move): Db
    requires Enabled(db, m)
  {
    match m
    case Stay => db
    case Insert(details, clientKey, id, now) => Inserted(db, details, clientKey, id, now)
    case Decide(id, code) => ToVerdict(db, id, code)
    case ReserveCredit(id) => Admitted(db, id)
    case AdmitDebit(id) => DebitAdmitted(db, id)
    case AdmitCredit(id) => Admitted(ToVerdict(db, id, None), id)
    case FreeHold(id) => Released(db, id)
    case SettleCredit(id) => CreditSettled(db, id)
    case SettleDebit(id) => DebitSettled(db, id)
    case ReturnCredit(id, returnCode) => CreditReturned(db, id, returnCode)
    case ReturnDebit(id, returnCode) => DebitReturned(db, id, returnCode)
    case Submit(ids, merchant, day) => Exports.Submit(db, ids, merchant, day)
  }

  ghost predicate Makes(db: Db, m: Move, d: Db) {
    Enabled(db, m) && Moved(db, m) == d
  }

  // ---------- The moves of the transactions ----------

  ghost function SettlementMove(db: Db, id: PaymentId): Move {
    if !SettleEffect(db, id).Ok? || SettleEffect(db, id).value == db then Stay
    else if id in db.holds then SettleCredit(id) else SettleDebit(id)
  }

  lemma SettlesDebit(db: Db, id: PaymentId)
    requires Enabled(db, SettleDebit(id)) && id !in db.holds
    ensures SettleEffect(db, id) == Ok(DebitSettled(db, id)) && DebitSettled(db, id) != db
  {
    assert DebitSettled(db, id).payments[id].status != db.payments[id].status;
  }

  /** A settlement debits an account exactly for a SUBMITTED debit of a usable account. */
  lemma SettlementMoves(db: Db, id: PaymentId)
    requires Mirrored(db)
    ensures Makes(db, SettlementMove(db, id), Commit(db, SettleEffect(db, id)))
    ensures SettlementMove(db, id).SettleDebit? <==> Enabled(db, SettleDebit(id))
    ensures SettlementMove(db, id).SettleDebit? || SettlementMove(db, id).SettleCredit? ||
            SettlementMove(db, id).Stay?
  {
    SliceOf(db, id);
    if Enabled(db, SettleDebit(id)) {
      SettlesDebit(db, id);
    }
  }

  ghost function ReturnMove(db: Db, id: PaymentId, returnCode: string): Move {
    if !ReturnEffect(db, id, returnCode).Ok? || ReturnEffect(db, id, returnCode).value == db then Stay
    else if id in db.holds then ReturnCredit(id, returnCode) else ReturnDebit(id, returnCode)
  }

  lemma ReturnMoves(db: Db, id: PaymentId, returnCode: string)
    requires Mirrored(db)
    ensures Makes(db, ReturnMove(db, id, returnCode), Commit(db, ReturnEffect(db, id, returnCode)))
  {
    SliceOf(db, id);
  }

  function ReleaseMove(db: Db, id: PaymentId): Move {
    if id in db.holds && id in db.payments && !db.holds[id].status.HoldReleased? then FreeHold(id) else Stay
  }

  lemma ReleaseMoves(db: Db, id: PaymentId)
    requires Mirrored(db)
    ensures Makes(db, ReleaseMove(db, id), Commit(db, Worker.Release(db, id)))
  {
    WorkerReleaseIs(db, id);
  }

  function ValidateMove(db: Db, id: PaymentId): Move {
    if Engine.Validate(db, id).Ok? && HasStatus(db, id, Received) then Decide(id, None) else Stay
  }

  lemma ValidateMoves(db: Db, id: PaymentId)
    requires Mirrored(db) && PapersOk(db)
    ensures Makes(db, ValidateMove(db, id), Commit(db, Engine.Validate(db, id)))
  {
    if id in db.payments {
      MerchantIsKnown(db, id);
      EngineValidateIs(db, id);
    }
  }

  ghost predicate Reserves(db: Db, id: PaymentId) {
    HasStatus(db, id, Validated) && db.payments[id].details.direction.Credit? && id !in db.holds && Reservable(db, id)
  }

  ghost function ReserveMove(db: Db, id: PaymentId): Move {
    if Reserves(db, id) then ReserveCredit(id) else Stay
  }

  lemma ReserveMoves(db: Db, id: PaymentId)
    requires Mirrored(db) && PapersOk(db)
    ensures Makes(db, ReserveMove(db, id), Commit(db, Engine.Reserve(db, id)))
  {
    if id in db.payments {
      MerchantIsKnown(db, id);
      if id !in db.holds && db.payments[id].status.Validated? && db.payments[id].details.direction.Credit? {
        EngineReserveIs(db, id);
      }
    }
  }

  function CreateMove(db: Db, r: Creation.Request, clientKey: string, caller: MerchantId, id: PaymentId, now: int): Move {
    if Creation.Create(db, r, clientKey, caller, id, now).Ok?
    then Insert(Creation.Canonical(r, caller), Trim(clientKey), id, now) else Stay
  }

  lemma CreateMoves(db: Db, r: Creation.Request, clientKey: string, caller: MerchantId, id: PaymentId, now: int)
    requires Mirrored(db) && PapersOk(db)
    ensures Makes(db, CreateMove(db, r, clientKey, caller, id, now),
                  Commit(db, Creation.Create(db, r, clientKey, caller, id, now)))
  {
    if Creation.Create(db, r, clientKey, caller, id, now).Ok? {
      InsertIs(db, Creation.Canonical(r, caller), Trim(clientKey), id, now);
    }
  }

  ghost function GenerateMove(db: Db, day: Day): Move {
    if Exports.Eligible(db.payments) == {} then Stay
    else Submit(Exports.NextBatch(db.payments), Exports.NextMerchant(db.payments), day)
  }

  lemma GenerateMoves(db: Db, day: Day)
    requires Mirrored(db) && PapersOk(db)
    ensures Makes(db, GenerateMove(db, day), Commit(db, Exports.Generate(db, day)))
  {
    if Exports.Eligible(db.payments) != {} {
      GenerateIs(db, day);
      Exports.NextBatchIsEligible(db.payments);
      assert forall id | id in Exports.NextBatch(db.payments) :: id in Exports.Eligible(db.payments);
    }
  }

  /** The payment's part of the worker's validation. */
  ghost function DecisionMove(db: Db, id: PaymentId): Move
    requires Untouched(db, id)
  {
    var v := Worker.Decide(db, id);
    if v.Fail? then Decide(id, Some(v.code))
    else if db.payments[id].details.direction.Debit? then AdmitDebit(id) else AdmitCredit(id)
  }

  lemma DecisionMoves(db: Db, id: PaymentId)
    requires Untouched(db, id)
    ensures Makes(db, DecisionMove(db, id), DecisionEffect(db, id))
  {
  }

  function Reclaimed(d: Db, key: EventKey, c: Claim): Db
    requires key in d.outbox
  {
    d.(outbox := d.outbox[key := d.outbox[key].(claim := c)])
  }

  /** The claim after the handler's validation stage. */
  function ValidatedClaim(c: Claim, t: nat, passes: bool): Claim {
    OutboxProtocol.Apply(if passes then OutboxProtocol.Apply(c, Complete, 0) else c, Advance(t, PastValidation), 0)
  }

  lemma AdvancingReclaims(d: Db, key: EventKey, t: nat)
    requires key in d.outbox
    ensures StepRow(d, key, Advance(t, PastValidation), 0)
         == Reclaimed(d, key, ValidatedClaim(d.outbox[key].claim, t, false))
  {
  }

  lemma CompletingReclaims(d: Db, key: EventKey, t: nat)
    requires Worker.CompleteOutbox(d, key).Ok?
    ensures StepRow(Worker.CompleteOutbox(d, key).value, key, Advance(t, PastValidation), 0)
         == Reclaimed(d, key, ValidatedClaim(d.outbox[key].claim, t, true))
  {
  }

  ghost function ValidationMove(db: Db, key: EventKey, t: nat, seen: MerchantStatus): Move
    requires PapersOk(db) && Mirrored(db)
  {
    if !ValidateTxn(db, key, t, seen).Ok? || !db.payments[key.id].status.Received? then Stay
    else
      var v := SeenVerdict(db, key.id, seen);
      MerchantIsKnown(db, key.id);
      ReceivedIsUntouched(db, key.id);
      if v.Pass? then DecisionMove(db, key.id) else Decide(key.id, Some(v.code))
  }

  ghost predicate Validates(db: Db, key: EventKey, t: nat, seen: MerchantStatus, m: Move) {
    && key.Lifecycle? && key.id in db.payments && Enabled(db, m)
    && key in db.outbox && key in Moved(db, m).outbox
    && ValidateTxn(db, key, t, seen)
    == Ok(Reclaimed(Moved(db, m), key, ValidatedClaim(Moved(db, m).outbox[key].claim, t,
                                                      SeenVerdict(db, key.id, seen).Pass?)))
  }

  lemma RejectionMoves(db: Db, key: EventKey, t: nat, seen: MerchantStatus)
    requires Mirrored(db) && PapersOk(db) && ValidateTxn(db, key, t, seen).Ok?
    requires SeenVerdict(db, key.id, seen).Fail?
    ensures Validates(db, key, t, seen, ValidationMove(db, key, t, seen))
  {
    var m := ValidationMove(db, key, t, seen);
    if db.payments[key.id].status.Received? {
      TransitionIs(db, key.id, SeenVerdict(db, key.id, seen));
    }
    AdvancingReclaims(Moved(db, m), key, t);
  }

  lemma AcceptanceMoves(db: Db, key: EventKey, t: nat, seen: MerchantStatus)
    requires Mirrored(db) && PapersOk(db) && ValidateTxn(db, key, t, seen).Ok?
    requires SeenVerdict(db, key.id, seen).Pass?
    ensures Validates(db, key, t, seen, ValidationMove(db, key, t, seen))
  {
    var m := ValidationMove(db, key, t, seen);
    if db.payments[key.id].status.Received? {
      MerchantIsKnown(db, key.id);
      ReceivedIsUntouched(db, key.id);
      DecisionIs(db, key.id, key);
      DecisionMoves(db, key.id);
    }
    CompletingReclaims(Moved(db, m), key, t);
  }

  /** A validation commits one move together with the claim's own change. */
  lemma ValidationMoves(db: Db, key: EventKey, t: nat, seen: MerchantStatus)
    requires Mirrored(db) && PapersOk(db) && ValidateTxn(db, key, t, seen).Ok?
    ensures Validates(db, key, t, seen, ValidationMove(db, key, t, seen))
  {
    if SeenVerdict(db, key.id, seen).Pass? {
      AcceptanceMoves(db, key, t, seen);
    } else {
      RejectionMoves(db, key, t, seen);
    }
  }

  // ---------- The moves of the steps ----------

  ghost function PaymentMove(db: Db, step: Step): Move
    requires IsPaymentStep(step)
  {
    match step
    case CreatePayment(request, clientKey, caller, id, now) => CreateMove(db, request, clientKey, caller, id, now)
    case ApiValidate(id) => ValidateMove(db, id)
    case ApiReserve(id) => ReserveMove(db, id)
    case GenerateFile(day) => GenerateMove(db, day)
  }

  lemma PaymentTxnMoves(db: Db, step: Step)
    requires Mirrored(db) && PapersOk(db) && IsPaymentStep(step)
    ensures Makes(db, PaymentMove(db, step), Commit(db, PaymentTxn(db, step)))
  {
    match step
    case CreatePayment(request, clientKey, caller, id, now) => CreateMoves(db, request, clientKey, caller, id, now);
    case ApiValidate(id) => ValidateMoves(db, id);
    case ApiReserve(id) => ReserveMoves(db, id);
    case GenerateFile(day) => GenerateMoves(db, day);
  }

  ghost function ClearingMove(db: Db, step: Step): Move
    requires IsSettlementStep(step)
  {
    match step
    case ApiSettle(id) => SettlementMove(db, id)
    case WorkerSettle(id) => SettlementMove(db, id)
    case ApiReturn(id, returnCode) => ReturnMove(db, id, returnCode)
    case WorkerReturn(id, returnCode) => ReturnMove(db, id, returnCode)
    case WorkerRelease(id) => ReleaseMove(db, id)
  }

  lemma ApiSettlementMoves(db: Db, step: Step)
    requires Mirrored(db) && IsApiSettlementStep(step)
    ensures Makes(db, ClearingMove(db, step), Commit(db, ApiSettlementTxn(db, step)))
  {
    match step
    case ApiSettle(id) => EngineSettleIs(db, id); SettlementMoves(db, id);
    case ApiReturn(id, code) => EngineReturnIs(db, id, code); ReturnMoves(db, id, code);
  }

  lemma BankMoves(db: Db, step: Step)
    requires Mirrored(db) && IsBankStep(step)
    ensures Makes(db, ClearingMove(db, step), Commit(db, BankTxn(db, step)))
  {
    match step
    case WorkerSettle(id) => WorkerSettleIs(db, id); SettlementMoves(db, id);
    case WorkerReturn(id, code) => WorkerReturnIs(db, id, code); ReturnMoves(db, id, code);
    case WorkerRelease(id) => ReleaseMoves(db, id);
  }

  // ---------- Available funds ----------

  function Share(db: Db, id: PaymentId, a: AccountId): int
    requires id in db.payments
  {
    if AccountOf(db.payments[id].details) == a then db.payments[id].details.amount else 0
  }

  /** What a move adds to the available funds of an account. */
  ghost function Gain(db: Db, m: Move, a: AccountId): int
    requires Enabled(db, m)
  {
    match m
    case ReserveCredit(id) => -Share(db, id, a)
    case AdmitCredit(id) => -Share(db, id, a)
    case FreeHold(id) => if db.holds[id].status.HoldActive? then Share(db, id, a) else 0
    case SettleCredit(id) => Share(db, id, a)
    case SettleDebit(id) => -Share(db, id, a)
    case ReturnCredit(id, _) => Share(db, id, a)
    case ReturnDebit(id, _) => Share(db, id, a)
    case _ => 0
  }

  /** One new entry and one rewritten reservation. */
  lemma FundsOf(db: Db, d: Db, key: EntryKey, e: Entry, id: PaymentId, h: Hold, a: AccountId)
    requires key !in db.ledger && d.ledger == db.ledger[key := e]
    requires d.holds == db.holds[id := h]
    ensures Available(d, a) == Available(db, a) + ImpactOn(a)(e) - ActiveOn(a)(h)
                               + (if id in db.holds then ActiveOn(a)(db.holds[id]) else 0)
  {
    EntryMoves(db.ledger, a, key, e);
    HoldMoves(db.holds, a, id, h);
  }

  lemma ReserveFunds(db: Db, d: Db, id: PaymentId, a: AccountId)
    requires SliceOk(id, db.payments, db.holds, db.ledger, db.outbox.Keys) && id in db.payments && id !in db.holds
    requires d.holds == Admitted(db, id).holds && d.ledger == Admitted(db, id).ledger
    ensures Available(d, a) == Available(db, a) - Share(db, id, a)
  {
    FundsOf(db, d, ReservationKey(id), Paying(id, db.payments[id], ReservationEntry), id, d.holds[id], a);
  }

  lemma FreeFunds(db: Db, id: PaymentId, a: AccountId)
    requires SliceOk(id, db.payments, db.holds, db.ledger, db.outbox.Keys) && Enabled(db, FreeHold(id))
    ensures Available(Released(db, id), a) == Available(db, a) + Gain(db, FreeHold(id), a)
  {
    var d := Released(db, id);
    FundsOf(db, d, ReleaseKey(id), Paying(id, db.payments[id], ReservationRelease), id, d.holds[id], a);
  }

  lemma SettleCreditFunds(db: Db, id: PaymentId, a: AccountId)
    requires SliceOk(id, db.payments, db.holds, db.ledger, db.outbox.Keys) && Enabled(db, SettleCredit(id))
    ensures Available(CreditSettled(db, id), a) == Available(db, a) + Gain(db, SettleCredit(id), a)
  {
    var d := CreditSettled(db, id);
    FundsOf(db, d, SettlementKey(id), Paying(id, db.payments[id], Settlement), id, d.holds[id], a);
  }

  lemma SettleDebitFunds(db: Db, id: PaymentId, a: AccountId)
    requires SliceOk(id, db.payments, db.holds, db.ledger, db.outbox.Keys) && Enabled(db, SettleDebit(id))
    ensures Available(DebitSettled(db, id), a) == Available(db, a) + Gain(db, SettleDebit(id), a)
  {
    EntryMoves(db.ledger, a, DebitPostedKey(id), Paying(id, db.payments[id], DebitPosted));
  }

  lemma ReturnCreditFunds(db: Db, id: PaymentId, returnCode: string, a: AccountId)
    requires SliceOk(id, db.payments, db.holds, db.ledger, db.outbox.Keys) && Enabled(db, ReturnCredit(id, returnCode))
    ensures Available(CreditReturned(db, id, returnCode), a)
         == Available(db, a) + Gain(db, ReturnCredit(id, returnCode), a)
  {
    var d := CreditReturned(db, id, returnCode);
    FundsOf(db, d, ReturnKey(id), Paying(id, db.payments[id], ReturnEntry), id, d.holds[id], a);
  }

  lemma ReturnDebitFunds(db: Db, id: PaymentId, returnCode: string, a: AccountId)
    requires SliceOk(id, db.payments, db.holds, db.ledger, db.outbox.Keys) && Enabled(db, ReturnDebit(id, returnCode))
    ensures Available(DebitReturned(db, id, returnCode), a)
         == Available(db, a) + Gain(db, ReturnDebit(id, returnCode), a)
  {
    EntryMoves(db.ledger, a, DebitReturnKey(id), Paying(id, db.payments[id], ReturnEntry));
  }

  lemma SameFunds(db: Db, d: Db, a: AccountId)
    requires d.ledger == db.ledger && d.holds == db.holds
    ensures Available(d, a) == Available(db, a)
  {
  }

  predicate Clearing(m: Move) {
    m.FreeHold? || m.SettleCredit? || m.SettleDebit? || m.ReturnCredit? || m.ReturnDebit?
  }

  lemma ClearedFunds(db: Db, m: Move, a: AccountId)
    requires Enabled(db, m) && Clearing(m)
    requires SliceOk(m.id, db.payments, db.holds, db.ledger, db.outbox.Keys)
    ensures Available(Moved(db, m), a) == Available(db, a) + Gain(db, m, a)
  {
    match m
    case FreeHold(id) => FreeFunds(db, id, a);
    case SettleCredit(id) => SettleCreditFunds(db, id, a);
    case SettleDebit(id) => SettleDebitFunds(db, id, a);
    case ReturnCredit(id, code) => ReturnCreditFunds(db, id, code, a);
    case ReturnDebit(id, code) => ReturnDebitFunds(db, id, code, a);
  }

  lemma AdmittedFunds(db: Db, m: Move, a: AccountId)
    requires Enabled(db, m) && (m.ReserveCredit? || m.AdmitCredit?)
    requires SliceOk(m.id, db.payments, db.holds, db.ledger, db.outbox.Keys)
    ensures Available(Moved(db, m), a) == Available(db, a) - Share(db, m.id, a)
  {
    ReserveFunds(db, Moved(db, m), m.id, a);
  }

  lemma OtherFunds(db: Db, m: Move, a: AccountId)
    requires Enabled(db, m) && !Clearing(m) && !m.ReserveCredit? && !m.AdmitCredit?
    ensures Available(Moved(db, m), a) == Available(db, a)
  {
    SameFunds(db, Moved(db, m), a);
  }

  /** The funds of every account move by exactly the gain of the move. */
  lemma MovedFunds(db: Db, m: Move, a: AccountId)
    requires Mirrored(db) && Enabled(db, m)
    ensures Available(Moved(db, m), a) == Available(db, a) + Gain(db, m, a)
  {
    if Clearing(m) {
      SliceOf(db, m.id);
      ClearedFunds(db, m, a);
    } else if m.ReserveCredit? || m.AdmitCredit? {
      SliceOf(db, m.id);
      AdmittedFunds(db, m, a);
    } else {
      OtherFunds(db, m, a);
    }
  }

  lemma SubmitTables(db: Db, m: Move)
    requires Enabled(db, m) && m.Submit?
    ensures Moved(db, m).payments == Exports.MarkSubmitted(db.payments, m.ids, |db.files|)
    ensures Moved(db, m).holds == db.holds
  {
  }

  // ---------- Outbox rows ----------

  ghost predicate RowsStay(rows: map<EventKey, OutboxRow>, later: map<EventKey, OutboxRow>) {
    forall k | k in rows :: k in later && later[k] == rows[k]
  }

  lemma SubmittedRowsStay(db: Db, ps: Effects.Payments, ids: set<PaymentId>)
    requires Mirrored(db) && ids <= ps.Keys && forall id | id in ids :: HasStatus(db, id, Validated)
    ensures RowsStay(db.outbox, db.outbox + Exports.SubmittedEvents(ps, ids))
  {
    forall k | k in db.outbox ensures k !in Exports.SubmittedEvents(ps, ids) {
      SubmittedKeys(ps, ids, k);
      if k.Lifecycle? {
        SliceOf(db, k.id);
      }
    }
  }

  ghost predicate OutboxStays(db: Db, d: Db) {
    RowsStay(db.outbox, d.outbox) && d.deliveries == db.deliveries
  }

  lemma EmittingKeepsRows(db: Db, d: Db, key: EventKey)
    requires key !in db.outbox && key in d.outbox && d.outbox == db.outbox[key := d.outbox[key]]
    requires d.deliveries == db.deliveries
    ensures OutboxStays(db, d)
  {
  }

  lemma SettledRowsStay(db: Db, m: Move)
    requires Enabled(db, m) && (m.SettleCredit? || m.SettleDebit?)
    requires SliceOk(m.id, db.payments, db.holds, db.ledger, db.outbox.Keys)
    ensures OutboxStays(db, Moved(db, m))
  {
    EmittingKeepsRows(db, Moved(db, m), Lifecycle(m.id, PaymentSettled));
  }

  lemma ReturnedRowsStay(db: Db, m: Move)
    requires Enabled(db, m) && (m.ReturnCredit? || m.ReturnDebit?)
    requires SliceOk(m.id, db.payments, db.holds, db.ledger, db.outbox.Keys)
    ensures OutboxStays(db, Moved(db, m))
  {
    EmittingKeepsRows(db, Moved(db, m), Lifecycle(m.id, PaymentReturned));
  }

  lemma DecidedRowsStay(db: Db, m: Move)
    requires Enabled(db, m) && (m.Decide? || m.AdmitDebit?)
    requires SliceOk(m.id, db.payments, db.holds, db.ledger, db.outbox.Keys)
    ensures OutboxStays(db, Moved(db, m))
  {
    EmittingKeepsRows(db, Moved(db, m), Lifecycle(m.id, if m.Decide? && m.code.Some? then PaymentValidationFailed
                                                        else PaymentValidated));
  }

  lemma HeldRowsStay(db: Db, id: PaymentId)
    requires id in db.payments && Lifecycle(id, PaymentReserved) !in db.outbox
    ensures OutboxStays(db, Admitted(db, id))
  {
    EmittingKeepsRows(db, Admitted(db, id), Lifecycle(id, PaymentReserved));
  }

  lemma AdmittedRowsStay(db: Db, id: PaymentId)
    requires Enabled(db, AdmitCredit(id))
    ensures OutboxStays(db, Moved(db, AdmitCredit(id)))
  {
    EmittingKeepsRows(db, ToVerdict(db, id, None), Lifecycle(id, PaymentValidated));
    HeldRowsStay(ToVerdict(db, id, None), id);
  }

  lemma PaymentRowsStay(db: Db, m: Move)
    requires Enabled(db, m) && !m.Submit? && !m.Insert? && !m.Stay?
    requires SliceOk(m.id, db.payments, db.holds, db.ledger, db.outbox.Keys)
    ensures OutboxStays(db, Moved(db, m))
  {
    if m.SettleCredit? || m.SettleDebit? {
      SettledRowsStay(db, m);
    } else if m.ReturnCredit? || m.ReturnDebit? {
      ReturnedRowsStay(db, m);
    } else if m.Decide? || m.AdmitDebit? {
      DecidedRowsStay(db, m);
    } else if m.ReserveCredit? {
      HeldRowsStay(db, m.id);
    } else if m.AdmitCredit? {
      AdmittedRowsStay(db, m.id);
    }
  }

  /** No move rewrites a row that exists, or delivers anything. */
  lemma MovedRows(db: Db, m: Move)
    requires Mirrored(db) && Enabled(db, m)
    ensures OutboxStays(db, Moved(db, m))
  {
    if m.Submit? {
      SubmittedRowsStay(db, Exports.MarkSubmitted(db.payments, m.ids, |db.files|), m.ids);
    } else if m.Insert? {
      SliceOf(db, m.id);
      EmittingKeepsRows(db, Moved(db, m), Lifecycle(m.id, PaymentReceived));
    } else if !m.Stay? {
      SliceOf(db, m.id);
      PaymentRowsStay(db, m);
    }
  }

  // ---------- Charges ----------

  predicate Charges(m: Move) {
    m.ReserveCredit? || m.AdmitDebit? || m.AdmitCredit?
  }

  /** A move charges at most the one payment that it admits. */
  lemma MovedCharges(db: Db, m: Move)
    requires Enabled(db, m)
    ensures Moved(db, m).charges == db.charges + if Charges(m) then [m.id] else []
    ensures Charges(m) ==>
              && HasStatus(Moved(db, m), m.id, Validated)
              && (db.payments[m.id].details.direction.Credit? ==> m.id !in db.holds && m.id in Moved(db, m).holds)
  {
  }

  // ---------- The steps that move no payment ----------

  /** The books that an admission writes. */
  predicate SameBooks(db: Db, d: Db) {
    d.holds == db.holds && d.ledger == db.ledger && d.usage == db.usage && d.charges == db.charges
  }

  lemma MerchantsKeepBooks(db: Db, merchants: map<MerchantId, Merchant>)
    ensures SameBooks(db, db.(merchants := merchants))
  {
  }

  lemma OnboardKeepsBooks(db: Db, m: MerchantId, profile: Profile)
    ensures SameBooks(db, Commit(db, OnboardTxn(db, m, profile)))
  {
    if m !in db.merchants && ColonFree(m) {
      MerchantsKeepBooks(db, db.merchants[m := Merchant(profile, Active)]);
    }
  }

  lemma MerchantStatusKeepsBooks(db: Db, m: MerchantId, status: MerchantStatus)
    ensures SameBooks(db, Commit(db, MerchantStatusTxn(db, m, status)))
  {
    if m in db.merchants {
      MerchantsKeepBooks(db, db.merchants[m := db.merchants[m].(status := status)]);
    }
  }

  lemma EndpointTxnsKeepBooks(db: Db, e: EndpointId, m: MerchantId, isActive: bool)
    ensures SameBooks(db, Commit(db, EndpointTxn(db, e, m, isActive)))
    ensures SameBooks(db, Commit(db, RemoveEndpointTxn(db, e)))
  {
    EndpointTxnsSetEndpoints(db, e, m, isActive);
  }

  lemma SendTestKeepsBooks(db: Db, e: EndpointId, sentAt: int)
    ensures SameBooks(db, Commit(db, SendTestTxn(db, e, sentAt)))
  {
  }

  /** Of the settings only the provision of funds writes the books. */
  lemma SettingKeepsBooks(db: Db, step: Step)
    requires IsSettingStep(step) && !step.ProvisionFunding?
    ensures SameBooks(db, Commit(db, SettingTxn(db, step)))
  {
    match step
    case Onboard(m, profile) => OnboardKeepsBooks(db, m, profile);
    case SetMerchantStatus(m, status) => MerchantStatusKeepsBooks(db, m, status);
    case SetAccount(a, status) =>
    case SetEndpoint(e, m, isActive) => EndpointTxnsKeepBooks(db, e, m, isActive);
    case RemoveEndpoint(e) => EndpointTxnsKeepBooks(db, e, "", false);
    case SendWebhookTest(e, sentAt) => SendTestKeepsBooks(db, e, sentAt);
  }
}
