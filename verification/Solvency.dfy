/** When available funds go negative: exactly when a debit settles for more than is available. */
module Solvency {
  import opened Store
  import opened OutboxProtocol
  import opened Funding
  import opened Effects
  import opened Balances
  import opened Invariants
  import opened Agreement
  import opened Announcements
  import opened System
  import opened Moves
  import opened Witnesses
  import History
  import Engine = PaymentEngine

  /** A SUBMITTED debit of a usable account that is larger than the account's available funds. */
  ghost predicate DebitOverdraws(db: Db, id: PaymentId, a: AccountId) {
    && HasStatus(db, id, Submitted)
    && var d := db.payments[id].details;
       && d.direction.Debit? && AccountOf(d) == a && AccountUsable(db, a) && d.amount > Available(db, a)
  }

  /** Either service settles such a debit. */
  ghost predicate Overdraws(db: Db, step: Step, a: AccountId) {
    (step.ApiSettle? || step.WorkerSettle?) && DebitOverdraws(db, step.id, a)
  }

  ghost predicate MoveOverdraws(db: Db, m: Move, a: AccountId)
    requires Enabled(db, m)
  {
    m.SettleDebit? && Share(db, m.id, a) > Available(db, a)
  }

  ghost predicate Funded(db: Db, a: AccountId) {
    Available(db, a) >= 0
  }

  lemma AmountsArePositive(db: Db, m: Move, a: AccountId)
    requires Mirrored(db) && Enabled(db, m) && !m.Stay? && !m.Insert? && !m.Submit?
    ensures Share(db, m.id, a) >= 0
  {
    SliceOf(db, m.id);
  }

  lemma GainCovers(db: Db, m: Move, a: AccountId)
    requires Mirrored(db) && Enabled(db, m) && Funded(db, a)
    ensures Available(db, a) + Gain(db, m, a) >= 0 <==> !MoveOverdraws(db, m, a)
  {
    if !m.Stay? && !m.Insert? && !m.Submit? {
      AmountsArePositive(db, m, a);
    }
  }

  lemma MoveStaysFunded(db: Db, m: Move, d: Db, a: AccountId)
    requires Mirrored(db) && Makes(db, m, d) && Funded(db, a)
    ensures Funded(d, a) <==> !MoveOverdraws(db, m, a)
  {
    MovedFunds(db, m, a);
    GainCovers(db, m, a);
  }

  // ---------- The steps ----------

  lemma PaymentMoveSettlesNothing(db: Db, step: Step)
    requires IsPaymentStep(step)
    ensures !PaymentMove(db, step).SettleDebit?
  {
  }

  lemma OrdinaryMoveStaysFunded(db: Db, m: Move, d: Db, a: AccountId)
    requires Mirrored(db) && Makes(db, m, d) && Funded(db, a) && !m.SettleDebit?
    ensures Funded(d, a)
  {
    MoveStaysFunded(db, m, d, a);
  }

  lemma PaymentStepStaysFunded(db: Db, step: Step, a: AccountId)
    requires Mirrored(db) && PapersOk(db) && Funded(db, a) && IsPaymentStep(step)
    ensures Funded(Commit(db, PaymentTxn(db, step)), a)
  {
    PaymentTxnMoves(db, step);
    PaymentMoveSettlesNothing(db, step);
    OrdinaryMoveStaysFunded(db, PaymentMove(db, step), Commit(db, PaymentTxn(db, step)), a);
  }

  lemma SettlementStaysFunded(db: Db, id: PaymentId, a: AccountId)
    requires Mirrored(db) && Funded(db, a)
    ensures Funded(Commit(db, SettleEffect(db, id)), a) <==> !DebitOverdraws(db, id, a)
  {
    SettlementMoves(db, id);
    MoveStaysFunded(db, SettlementMove(db, id), Commit(db, SettleEffect(db, id)), a);
  }

  lemma ApiSettlementStaysFunded(db: Db, step: Step, a: AccountId)
    requires Mirrored(db) && Funded(db, a) && IsApiSettlementStep(step)
    ensures Funded(Commit(db, ApiSettlementTxn(db, step)), a) <==> !Overdraws(db, step, a)
  {
    if step.ApiSettle? {
      EngineSettleIs(db, step.id);
      SettlementStaysFunded(db, step.id, a);
    } else {
      ApiSettlementMoves(db, step);
      MoveStaysFunded(db, ClearingMove(db, step), Commit(db, ApiSettlementTxn(db, step)), a);
    }
  }

  lemma BankStaysFunded(db: Db, step: Step, a: AccountId)
    requires Mirrored(db) && Funded(db, a) && IsBankStep(step)
    ensures Funded(Commit(db, BankTxn(db, step)), a) <==> !Overdraws(db, step, a)
  {
    if step.WorkerSettle? {
      WorkerSettleIs(db, step.id);
      SettlementStaysFunded(db, step.id, a);
    } else {
      BankMoves(db, step);
      MoveStaysFunded(db, ClearingMove(db, step), Commit(db, BankTxn(db, step)), a);
    }
  }

  lemma ReclaimingKeepsFunds(db: Db, key: EventKey, t: nat, seen: MerchantStatus, m: Move, a: AccountId)
    requires Validates(db, key, t, seen, m)
    ensures Available(Commit(db, ValidateTxn(db, key, t, seen)), a) == Available(Moved(db, m), a)
  {
    SameFunds(Moved(db, m), Commit(db, ValidateTxn(db, key, t, seen)), a);
  }

  lemma ValidationNeverSettles(db: Db, key: EventKey, t: nat, seen: MerchantStatus)
    requires Mirrored(db) && PapersOk(db)
    ensures !ValidationMove(db, key, t, seen).SettleDebit?
  {
  }

  lemma ValidationStaysFunded(db: Db, key: EventKey, t: nat, seen: MerchantStatus, a: AccountId)
    requires Mirrored(db) && PapersOk(db) && Funded(db, a)
    ensures Funded(Commit(db, ValidateTxn(db, key, t, seen)), a)
  {
    if ValidateTxn(db, key, t, seen).Ok? {
      var m := ValidationMove(db, key, t, seen);
      ValidationMoves(db, key, t, seen);
      ValidationNeverSettles(db, key, t, seen);
      MoveStaysFunded(db, m, Moved(db, m), a);
      ReclaimingKeepsFunds(db, key, t, seen, m, a);
    }
  }

  lemma MaterialisingStaysFunded(db: Db, key: EventKey, t: nat, a: AccountId)
    ensures Available(Commit(db, MaterialiseTxn(db, key, t)), a) == Available(db, a)
  {
    SameFunds(db, Commit(db, MaterialiseTxn(db, key, t)), a);
  }

  lemma HandlerStaysFunded(db: Db, step: Step, a: AccountId)
    requires Mirrored(db) && PapersOk(db) && Funded(db, a) && IsHandlerStep(step)
    ensures Funded(Commit(db, HandlerTxn(db, step)), a)
  {
    match step
    case ValidateReceived(key, t, seen) => ValidationStaysFunded(db, key, t, seen, a);
    case MaterialiseWebhooks(key, t) => MaterialisingStaysFunded(db, key, t, a);
  }

  lemma ClaimingStaysFunded(db: Db, key: EventKey, step: RowStep, maxAttempts: nat, a: AccountId)
    ensures Available(Commit(db, RowTxn(db, key, step, maxAttempts)), a) == Available(db, a)
  {
    SameFunds(db, Commit(db, RowTxn(db, key, step, maxAttempts)), a);
  }

  lemma ProvisionedFunds(db: Db, d: Db, b: AccountId, amount: int, a: AccountId)
    requires DemoFundingKey(b) !in db.ledger && d.holds == db.holds
    requires d.ledger == db.ledger[DemoFundingKey(b) := Entry(b, None, InitialCredit, amount)]
    ensures Available(d, a) == Available(db, a) + if a == b then amount else 0
  {
    EntryMoves(db.ledger, a, DemoFundingKey(b), Entry(b, None, InitialCredit, amount));
  }

  predicate Provisions(db: Db, d: Db, b: AccountId, amount: int) {
    || d.ledger == db.ledger
    || (amount > 0 && DemoFundingKey(b) !in db.ledger
        && d.ledger == db.ledger[DemoFundingKey(b) := Entry(b, None, InitialCredit, amount)])
  }

  lemma ProvisionKnownWrites(db: Db, b: AccountId, amount: int)
    requires b in db.accounts
    ensures Provisions(db, Commit(db, ProvisionTxn(db, b, amount)), b, amount)
  {
  }

  lemma ProvisionNewWrites(db: Db, b: AccountId, amount: int)
    requires b !in db.accounts
    ensures Provisions(db, Commit(db, ProvisionTxn(db, b, amount)), b, amount)
  {
  }

  lemma ProvisionStaysFunded(db: Db, b: AccountId, amount: int, a: AccountId)
    requires Funded(db, a)
    ensures Funded(Commit(db, ProvisionTxn(db, b, amount)), a)
  {
    var d := Commit(db, ProvisionTxn(db, b, amount));
    ProvisionOnlyFunds(db, b, amount);
    if b in db.accounts {
      ProvisionKnownWrites(db, b, amount);
    } else {
      ProvisionNewWrites(db, b, amount);
    }
    if d.ledger == db.ledger {
      SameFunds(db, d, a);
    } else {
      ProvisionedFunds(db, d, b, amount, a);
    }
  }

  lemma SettingStaysFunded(db: Db, step: Step, a: AccountId)
    requires Funded(db, a) && IsSettingStep(step)
    ensures Funded(Commit(db, SettingTxn(db, step)), a)
  {
    if step.ProvisionFunding? {
      ProvisionStaysFunded(db, step.a, step.amount, a);
    } else {
      SettingKeepsBooks(db, step);
      SameFunds(db, Commit(db, SettingTxn(db, step)), a);
    }
  }

  /** One step takes the available funds below zero exactly when it overdraws the account. */
  lemma StepStaysFunded(db: Db, step: Step, a: AccountId, maxAttempts: nat)
    requires Mirrored(db) && PapersOk(db) && Funded(db, a)
    ensures Funded(Next(db, step, maxAttempts), a) <==> !Overdraws(db, step, a)
  {
    if IsPaymentStep(step) {
      PaymentStepStaysFunded(db, step, a);
    } else if IsApiSettlementStep(step) {
      ApiSettlementStaysFunded(db, step, a);
    } else if IsBankStep(step) {
      BankStaysFunded(db, step, a);
    } else if IsHandlerStep(step) {
      HandlerStaysFunded(db, step, a);
    } else if IsClaimStep(step) {
      ClaimingStaysFunded(db, step.key, ClaimStep(step), maxAttempts, a);
    } else {
      SettingStaysFunded(db, step, a);
    }
  }

  // ---------- Runs ----------

  ghost predicate FundedAt(db: Db, steps: seq<Step>, i: nat, a: AccountId, maxAttempts: nat)
    requires i <= |steps|
  {
    Funded(System.Run(db, steps[..i], maxAttempts), a)
  }

  ghost predicate OverdrawsAt(db: Db, steps: seq<Step>, i: nat, a: AccountId, maxAttempts: nat)
    requires i < |steps|
  {
    Overdraws(System.Run(db, steps[..i], maxAttempts), steps[i], a)
  }

  /** Available funds are never negative along the run. */
  ghost predicate AlwaysFunded(db: Db, steps: seq<Step>, a: AccountId, maxAttempts: nat) {
    forall i | 0 <= i <= |steps| :: FundedAt(db, steps, i, a, maxAttempts)
  }

  ghost predicate NeverOverdraws(db: Db, steps: seq<Step>, a: AccountId, maxAttempts: nat) {
    forall i | 0 <= i < |steps| :: !OverdrawsAt(db, steps, i, a, maxAttempts)
  }

  lemma StepAt(db: Db, steps: seq<Step>, i: nat, a: AccountId, maxAttempts: nat)
    requires Inv(db, maxAttempts) && maxAttempts >= 1 && i < |steps| && FundedAt(db, steps, i, a, maxAttempts)
    ensures FundedAt(db, steps, i + 1, a, maxAttempts) <==> !OverdrawsAt(db, steps, i, a, maxAttempts)
  {
    History.RunIsLater(db, steps[..i], maxAttempts);
    System.RunTake(db, steps, i, maxAttempts);
    StepStaysFunded(System.Run(db, steps[..i], maxAttempts), steps[i], a, maxAttempts);
  }

  lemma FundedThroughout(db: Db, steps: seq<Step>, a: AccountId, maxAttempts: nat)
    requires Inv(db, maxAttempts) && maxAttempts >= 1 && Funded(db, a)
    requires NeverOverdraws(db, steps, a, maxAttempts)
    ensures AlwaysFunded(db, steps, a, maxAttempts)
  {
    var flags := seq(|steps| + 1, i requires 0 <= i <= |steps| => FundedAt(db, steps, i, a, maxAttempts));
    forall j | 0 <= j < |steps| ensures flags[j] ==> flags[j + 1] {
      if flags[j] {
        StepAt(db, steps, j, a, maxAttempts);
      }
    }
    forall i | 0 <= i <= |steps| ensures FundedAt(db, steps, i, a, maxAttempts) {
      System.HandedOn(flags, i);
    }
  }

  /** From any safe state, the available funds stay non-negative along a run exactly when no step of it overdraws. */
  lemma RunStaysFunded(db: Db, steps: seq<Step>, a: AccountId, maxAttempts: nat)
    requires Inv(db, maxAttempts) && maxAttempts >= 1 && Funded(db, a)
    ensures AlwaysFunded(db, steps, a, maxAttempts) <==> NeverOverdraws(db, steps, a, maxAttempts)
  {
    if NeverOverdraws(db, steps, a, maxAttempts) {
      FundedThroughout(db, steps, a, maxAttempts);
    }
    if AlwaysFunded(db, steps, a, maxAttempts) {
      forall i | 0 <= i < |steps| ensures !OverdrawsAt(db, steps, i, a, maxAttempts) {
        assert FundedAt(db, steps, i + 1, a, maxAttempts);
        StepAt(db, steps, i, a, maxAttempts);
      }
    }
  }

  // ---------- Funds do go negative ----------

  lemma DebitSettles(db: Db, id: PaymentId, a: AccountId)
    requires Mirrored(db) && Enabled(db, SettleDebit(id)) && AccountOf(db.payments[id].details) == a
    ensures Available(Commit(db, Engine.Settle(db, id)), a) == Available(db, a) - db.payments[id].details.amount
  {
    EngineSettleIs(db, id);
    SettlementMoves(db, id);
    MovedFunds(db, SettleDebit(id), a);
  }

  lemma SettlementArrives(db: Db, id: PaymentId, a: AccountId, maxAttempts: nat) returns (d: Db)
    requires Arrives(db, maxAttempts) && maxAttempts >= 1
    requires Enabled(db, SettleDebit(id)) && AccountOf(db.payments[id].details) == a
    ensures Reachable(d, maxAttempts) && Available(d, a) == Available(db, a) - db.payments[id].details.amount
  {
    DebitSettles(db, id, a);
    StepIsReachable(db, ApiSettle(id), maxAttempts);
    d := Next(db, ApiSettle(id), maxAttempts);
  }

  lemma AskedFunds(c: Case)
    ensures Available(Asked(c), ACCOUNT) == c.funds
  {
    var e := Entry(ACCOUNT, None, InitialCredit, c.funds);
    assert EMPTY.ledger[DemoFundingKey(ACCOUNT) := e] == map[DemoFundingKey(ACCOUNT) := e];
    ProvisionedFunds(EMPTY, Asked(c), ACCOUNT, c.funds, ACCOUNT);
  }

  lemma KeptFunds(c: Case, d: Db)
    requires d.ledger == Asked(c).ledger && d.holds == Asked(c).holds
    ensures Available(d, ACCOUNT) == c.funds
  {
    AskedFunds(c);
    SameFunds(Asked(c), d, ACCOUNT);
  }

  lemma ReadyToSettle(d: Db, id: PaymentId, a: AccountId)
    requires HasStatus(d, id, Submitted) && d.payments[id].details.direction.Debit?
    requires AccountOf(d.payments[id].details) == a && AccountUsable(d, a)
    ensures Enabled(d, SettleDebit(id))
  {
  }

  lemma SettlingExported(c: Case, d: Db, maxAttempts: nat) returns (settled: Db)
    requires c.Valid() && c.direction.Debit? && Arrives(d, maxAttempts) && maxAttempts >= 1
    requires HasStatus(d, "p", Submitted) && d.payments["p"].details == c.Details() && AccountUsable(d, ACCOUNT)
    requires Available(d, ACCOUNT) == c.funds
    ensures Reachable(settled, maxAttempts) && Available(settled, ACCOUNT) == c.funds - c.amount
  {
    ReadyToSettle(d, "p", ACCOUNT);
    settled := SettlementArrives(d, "p", ACCOUNT, maxAttempts);
  }

  lemma Overdraft(c: Case, maxAttempts: nat) returns (settled: Db)
    requires c.Valid() && c.direction.Debit? && maxAttempts >= 1
    ensures Reachable(settled, maxAttempts) && Available(settled, ACCOUNT) == c.funds - c.amount
  {
    var exported := ExportedArrives(c, Day(2024, 1, 1), maxAttempts);
    KeptFunds(c, exported);
    settled := SettlingExported(c, exported, maxAttempts);
  }

  /** A debit of any amount settles against any funds, and leaves the account short by the difference. */
  lemma OverdraftIsReached(funds: nat, amount: nat, maxAttempts: nat)
    requires funds >= 1 && amount >= 1 && maxAttempts >= 1
    ensures exists db :: Reachable(db, maxAttempts) && Available(db, ACCOUNT) == funds - amount
  {
    var settled := Overdraft(Plain(funds, amount), maxAttempts);
  }
}
