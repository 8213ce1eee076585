/** Credits that are exported without a reservation: which exports do that, and what becomes of them. */
module Stranding {
  import opened Store
  import opened Effects
  import opened Invariants
  import opened Agreement
  import opened History
  import opened OutboxProtocol
  import opened System
  import opened Moves
  import opened Charging
  import opened DailyLimits
  import opened Witnesses
  import Exports
  import Theorems
  import Worker = WorkerLifecycle
  import Engine = PaymentEngine

  // ---------- Stranded credits ----------

  predicate Unreserved(ps: Effects.Payments, holds: Effects.Holds, id: PaymentId) {
    id in ps && ps[id].details.direction.Credit? && id !in holds
  }

  /** Handed to the bank, without funds set aside for it. */
  predicate Stranded(ps: Effects.Payments, holds: Effects.Holds, id: PaymentId) {
    Unreserved(ps, holds, id) && ps[id].status.Submitted?
  }

  ghost predicate NoneStranded(db: Db) {
    forall id :: !Stranded(db.payments, db.holds, id)
  }

  /** The next export takes a credit without a reservation along. */
  ghost predicate Strands(db: Db, step: Step) {
    && step.GenerateFile? && Exports.Eligible(db.payments) != {}
    && exists id :: id in Exports.NextBatch(db.payments) && Unreserved(db.payments, db.holds, id)
  }

  ghost predicate LeavesPayments(db: Db, m: Move, d: Db) {
    Enabled(db, m) && SamePaymentTables(d, Moved(db, m))
  }

  ghost predicate MoveStrands(db: Db, m: Move) {
    m.Submit? && exists id :: id in m.ids && Unreserved(db.payments, db.holds, id)
  }

  lemma SubmittedStranded(ps: Effects.Payments, holds: Effects.Holds, ids: set<PaymentId>, n: nat, id: PaymentId)
    ensures Stranded(Exports.MarkSubmitted(ps, ids, n), holds, id) <==>
            Stranded(ps, holds, id) || (id in ids && Unreserved(ps, holds, id))
  {
  }

  lemma SubmitStrands(db: Db, m: Move)
    requires Enabled(db, m) && m.Submit? && NoneStranded(db)
    ensures NoneStranded(Moved(db, m)) <==> !MoveStrands(db, m)
  {
    var d := Moved(db, m);
    SubmitTables(db, m);
    forall id
      ensures Stranded(d.payments, d.holds, id) <==> id in m.ids && Unreserved(db.payments, db.holds, id)
    {
      SubmittedStranded(db.payments, db.holds, m.ids, |db.files|, id);
      assert !Stranded(db.payments, db.holds, id);
    }
  }

  lemma OtherMoveStrandsNothing(db: Db, m: Move)
    requires Enabled(db, m) && !m.Submit? && NoneStranded(db)
    ensures NoneStranded(Moved(db, m))
  {
    var d := Moved(db, m);
    forall id ensures !Stranded(d.payments, d.holds, id) {
      assert !Stranded(db.payments, db.holds, id);
    }
  }

  lemma MoveStrandsExactly(db: Db, m: Move, d: Db)
    requires LeavesPayments(db, m, d) && NoneStranded(db)
    ensures NoneStranded(d) <==> !MoveStrands(db, m)
  {
    if m.Submit? {
      SubmitStrands(db, m);
    } else {
      OtherMoveStrandsNothing(db, m);
    }
    assert NoneStranded(d) <==> NoneStranded(Moved(db, m));
  }

  // ---------- For good ----------

  lemma ClearingKeepsStranded(db: Db, m: Move, id: PaymentId)
    requires Enabled(db, m) && Clearing(m) && Stranded(db.payments, db.holds, id)
    ensures Stranded(Moved(db, m).payments, Moved(db, m).holds, id)
  {
  }

  lemma MoveKeepsStranded(db: Db, m: Move, id: PaymentId)
    requires Enabled(db, m) && Stranded(db.payments, db.holds, id)
    ensures Stranded(Moved(db, m).payments, Moved(db, m).holds, id)
  {
    if Clearing(m) {
      ClearingKeepsStranded(db, m, id);
    } else if m.Submit? {
      SubmitTables(db, m);
      SubmittedStranded(db.payments, db.holds, m.ids, |db.files|, id);
    }
  }

  ghost predicate KeepsStranded(db: Db, d: Db) {
    forall id | Stranded(db.payments, db.holds, id) :: Stranded(d.payments, d.holds, id)
  }

  /** Whether a change strands a credit; none is ever freed. */
  ghost predicate StrandsIff(db: Db, d: Db, strands: bool) {
    KeepsStranded(db, d) && (NoneStranded(db) ==> (NoneStranded(d) <==> !strands))
  }

  lemma MoveStrandsIff(db: Db, m: Move, d: Db)
    requires LeavesPayments(db, m, d)
    ensures StrandsIff(db, d, MoveStrands(db, m))
  {
    forall id | Stranded(db.payments, db.holds, id) ensures Stranded(d.payments, d.holds, id) {
      MoveKeepsStranded(db, m, id);
    }
    if NoneStranded(db) {
      MoveStrandsExactly(db, m, d);
    }
  }

  lemma SameTablesStrandNothing(db: Db, d: Db)
    requires SamePaymentTables(d, db)
    ensures StrandsIff(db, d, false)
  {
  }

  // ---------- The steps ----------

  lemma ExportStrands(db: Db, day: Day)
    requires Mirrored(db) && PapersOk(db)
    ensures StrandsIff(db, Commit(db, Exports.Generate(db, day)), Strands(db, GenerateFile(day)))
  {
    GenerateMoves(db, day);
    MoveStrandsIff(db, GenerateMove(db, day), Commit(db, Exports.Generate(db, day)));
  }

  lemma PaymentMoveIsNoExport(db: Db, step: Step)
    requires IsPaymentStep(step) && !step.GenerateFile?
    ensures !PaymentMove(db, step).Submit?
  {
  }

  lemma OtherPaymentStepStrandsNothing(db: Db, step: Step)
    requires Mirrored(db) && PapersOk(db) && IsPaymentStep(step) && !step.GenerateFile?
    ensures StrandsIff(db, Commit(db, PaymentTxn(db, step)), false)
  {
    PaymentTxnMoves(db, step);
    PaymentMoveIsNoExport(db, step);
    MoveStrandsIff(db, PaymentMove(db, step), Commit(db, PaymentTxn(db, step)));
  }

  lemma PaymentStepStrands(db: Db, step: Step)
    requires Mirrored(db) && PapersOk(db) && IsPaymentStep(step)
    ensures StrandsIff(db, Commit(db, PaymentTxn(db, step)), Strands(db, step))
  {
    if step.GenerateFile? {
      ExportStrands(db, step.day);
    } else {
      OtherPaymentStepStrandsNothing(db, step);
    }
  }

  lemma ClearingMoveIsNoExport(db: Db, step: Step)
    requires IsSettlementStep(step)
    ensures !ClearingMove(db, step).Submit?
  {
  }

  lemma ApiSettlementStrandsNothing(db: Db, step: Step)
    requires Mirrored(db) && IsApiSettlementStep(step)
    ensures StrandsIff(db, Commit(db, ApiSettlementTxn(db, step)), false)
  {
    ApiSettlementMoves(db, step);
    ClearingMoveIsNoExport(db, step);
    MoveStrandsIff(db, ClearingMove(db, step), Commit(db, ApiSettlementTxn(db, step)));
  }

  lemma BankStrandsNothing(db: Db, step: Step)
    requires Mirrored(db) && IsBankStep(step)
    ensures StrandsIff(db, Commit(db, BankTxn(db, step)), false)
  {
    BankMoves(db, step);
    ClearingMoveIsNoExport(db, step);
    MoveStrandsIff(db, ClearingMove(db, step), Commit(db, BankTxn(db, step)));
  }

  lemma ValidationStrandsNothing(db: Db, key: EventKey, t: nat, seen: MerchantStatus)
    requires Mirrored(db) && PapersOk(db)
    ensures StrandsIff(db, Commit(db, ValidateTxn(db, key, t, seen)), false)
  {
    if ValidateTxn(db, key, t, seen).Ok? {
      var m := ValidationMove(db, key, t, seen);
      ValidationMoves(db, key, t, seen);
      ValidationDecides(db, key, t, seen);
      ReclaimingKeepsPayments(db, key, t, seen, m);
      MoveStrandsIff(db, m, Commit(db, ValidateTxn(db, key, t, seen)));
    } else {
      SameTablesStrandNothing(db, db);
    }
  }

  lemma HandlerStepStrandsNothing(db: Db, step: Step)
    requires Mirrored(db) && PapersOk(db) && IsHandlerStep(step)
    ensures StrandsIff(db, Commit(db, HandlerTxn(db, step)), false)
  {
    match step
    case ValidateReceived(key, t, seen) => ValidationStrandsNothing(db, key, t, seen);
    case MaterialiseWebhooks(key, t) =>
      MaterialisingKeepsPayments(db, key, t);
      SameTablesStrandNothing(db, Commit(db, MaterialiseTxn(db, key, t)));
  }

  lemma ClaimStrandsNothing(db: Db, key: EventKey, step: RowStep, maxAttempts: nat)
    ensures StrandsIff(db, Commit(db, RowTxn(db, key, step, maxAttempts)), false)
  {
    SameTablesStrandNothing(db, Commit(db, RowTxn(db, key, step, maxAttempts)));
  }

  lemma SettingStrandsNothing(db: Db, step: Step)
    requires IsSettingStep(step)
    ensures StrandsIff(db, Commit(db, SettingTxn(db, step)), false)
  {
    SettingKeepsPayments(db, step);
    SameTablesStrandNothing(db, Commit(db, SettingTxn(db, step)));
  }

  lemma StepStrandsIff(db: Db, d: Db, step: Step, maxAttempts: nat)
    requires Mirrored(db) && PapersOk(db) && d == Next(db, step, maxAttempts)
    ensures StrandsIff(db, d, Strands(db, step))
  {
    if IsPaymentStep(step) {
      PaymentStepStrands(db, step);
    } else if IsApiSettlementStep(step) {
      ApiSettlementStrandsNothing(db, step);
    } else if IsBankStep(step) {
      BankStrandsNothing(db, step);
    } else if IsHandlerStep(step) {
      HandlerStepStrandsNothing(db, step);
    } else if IsClaimStep(step) {
      ClaimStrandsNothing(db, step.key, ClaimStep(step), maxAttempts);
    } else {
      SettingStrandsNothing(db, step);
    }
  }

  /** One step strands a credit exactly when it exports one that holds no reservation. */
  lemma StepStrands(db: Db, d: Db, step: Step, maxAttempts: nat)
    requires Mirrored(db) && PapersOk(db) && NoneStranded(db) && d == Next(db, step, maxAttempts)
    ensures NoneStranded(d) <==> !Strands(db, step)
  {
    StepStrandsIff(db, d, step, maxAttempts);
  }

  lemma {:induction false} StrandedIsForever(db: Db, steps: seq<Step>, id: PaymentId, maxAttempts: nat)
    requires Inv(db, maxAttempts) && maxAttempts >= 1 && Stranded(db.payments, db.holds, id)
    ensures var d := System.Run(db, steps, maxAttempts); Stranded(d.payments, d.holds, id)
    decreases |steps|
  {
    if steps != [] {
      var before := System.Run(db, steps[..|steps| - 1], maxAttempts);
      StrandedIsForever(db, steps[..|steps| - 1], id, maxAttempts);
      RunIsLater(db, steps[..|steps| - 1], maxAttempts);
      StepStrandsIff(before, System.Run(db, steps, maxAttempts), steps[|steps| - 1], maxAttempts);
    }
  }

  /** Neither service reserves, settles, returns or releases it. */
  lemma StrandedIsRefused(db: Db, id: PaymentId, returnCode: string)
    requires Mirrored(db) && Stranded(db.payments, db.holds, id)
    ensures Engine.Reserve(db, id).Err? && Engine.Settle(db, id).Err? && Engine.Return(db, id, returnCode).Err?
    ensures Worker.Settle(db, id).Err? && Worker.Return(db, id, returnCode).Err? && Worker.Release(db, id).Err?
  {
    EngineSettleIs(db, id);
    EngineReturnIs(db, id, returnCode);
    WorkerSettleIs(db, id);
    WorkerReturnIs(db, id, returnCode);
    WorkerReleaseIs(db, id);
  }

  /** A credit that was exported without a reservation stays SUBMITTED on every continuation, and every bank callback
      on it is refused. */
  lemma StrandedNeverSettles(db: Db, steps: seq<Step>, id: PaymentId, returnCode: string, maxAttempts: nat)
    requires Reachable(db, maxAttempts) && maxAttempts >= 1 && Stranded(db.payments, db.holds, id)
    ensures var d := System.Run(db, steps, maxAttempts);
            && Stranded(d.payments, d.holds, id)
            && Worker.Settle(d, id).Err? && Worker.Return(d, id, returnCode).Err? && Engine.Reserve(d, id).Err?
  {
    Theorems.ReachableIsSafe(db, maxAttempts);
    StrandedIsForever(db, steps, id, maxAttempts);
    RunIsLater(db, steps, maxAttempts);
    StrandedIsRefused(System.Run(db, steps, maxAttempts), id, returnCode);
  }

  // ---------- Runs ----------

  ghost predicate AllNoneStranded(states: seq<Db>) {
    forall i | 0 <= i < |states| :: NoneStranded(states[i])
  }

  ghost predicate NoneStrands(states: seq<Db>, steps: seq<Step>)
    requires |states| == |steps| + 1
  {
    forall i | 0 <= i < |steps| :: !Strands(states[i], steps[i])
  }

  lemma StrandingAlong(states: seq<Db>, steps: seq<Step>)
    requires |states| == |steps| + 1 && NoneStranded(states[0])
    requires forall j | 0 <= j < |steps| && NoneStranded(states[j]) ::
               NoneStranded(states[j + 1]) <==> !Strands(states[j], steps[j])
    ensures AllNoneStranded(states) <==> NoneStrands(states, steps)
  {
    var flags := seq(|states|, i requires 0 <= i < |states| => NoneStranded(states[i]));
    var bad := seq(|steps|, i requires 0 <= i < |steps| => Strands(states[i], steps[i]));
    System.LostByBadSteps(flags, bad);
    if AllNoneStranded(states) {
      forall j | 0 <= j < |steps| ensures !Strands(states[j], steps[j]) {
        assert flags[j + 1] && !bad[j];
      }
    }
    if NoneStrands(states, steps) {
      assert forall j | 0 <= j < |bad| :: !bad[j];
      forall i | 0 <= i < |states| ensures NoneStranded(states[i]) {
        assert flags[i];
      }
    }
  }

  lemma StateStrands(db: Db, steps: seq<Step>, i: nat, maxAttempts: nat)
    requires Inv(db, maxAttempts) && maxAttempts >= 1 && i < |steps| && NoneStranded(States(db, steps, maxAttempts)[i])
    ensures NoneStranded(States(db, steps, maxAttempts)[i + 1]) <==>
            !Strands(States(db, steps, maxAttempts)[i], steps[i])
  {
    var states := States(db, steps, maxAttempts);
    StateIsSafe(db, steps, i, maxAttempts);
    System.NextState(db, steps, i, maxAttempts);
    StepStrands(states[i], states[i + 1], steps[i], maxAttempts);
  }

  /** No credit is stranded along a run exactly when no export of it takes a credit without a reservation along. */
  lemma RunStrands(db: Db, steps: seq<Step>, maxAttempts: nat)
    requires Inv(db, maxAttempts) && maxAttempts >= 1 && NoneStranded(db)
    ensures AllNoneStranded(States(db, steps, maxAttempts)) <==> NoneStrands(States(db, steps, maxAttempts), steps)
  {
    var states := States(db, steps, maxAttempts);
    forall j | 0 <= j < |steps| && NoneStranded(states[j])
      ensures NoneStranded(states[j + 1]) <==> !Strands(states[j], steps[j])
    {
      StateStrands(db, steps, j, maxAttempts);
    }
    System.FirstState(db, steps, maxAttempts);
    StrandingAlong(states, steps);
  }

  // ---------- It happens ----------

  lemma ExportedIsStranded(c: Case, db: Db)
    requires c.direction.Credit? && HasStatus(db, "p", Submitted) && db.payments["p"].details == c.Details()
    requires db.holds == Asked(c).holds
    ensures Stranded(db.payments, db.holds, "p")
  {
  }

  /** The API validates a credit, nobody reserves it, the export takes it. */
  lemma StrandedIsReached(maxAttempts: nat)
    requires maxAttempts >= 1
    ensures exists db :: Reachable(db, maxAttempts) && Stranded(db.payments, db.holds, "p")
  {
    var c := Case(1, 1, 1, "n", Credit);
    var d := ExportedArrives(c, Day(2024, 1, 1), maxAttempts);
    ExportedIsStranded(c, d);
  }
}
