/** The attempts of an event in a run of the whole system: when the configured maximum bounds them, and that the
    true bound is reached. */
module Attempts {
  import opened Store
  import opened OutboxProtocol
  import opened Effects
  import opened Invariants
  import opened History
  import opened System
  import opened Moves
  import opened Delivery
  import opened Witnesses

  // ---------- Within the maximum ----------

  predicate EventWithin(db: Db, key: EventKey, maxAttempts: nat) {
    key in db.outbox && Within(db.outbox[key].claim, maxAttempts)
  }

  /** A late failure, reported while the event's last attempt runs. */
  predicate OverdueStep(db: Db, step: Step, key: EventKey, maxAttempts: nat) {
    key in db.outbox && step.MarkRowFailed? && step.key == key
    && Overdue(db.outbox[key].claim, ClaimStep(step), maxAttempts)
  }

  lemma ClaimStaysWithin(db: Db, step: Step, maxAttempts: nat)
    requires IsClaimStep(step) && maxAttempts >= 1 && EventWithin(db, step.key, maxAttempts)
    ensures EventWithin(Commit(db, RowTxn(db, step.key, ClaimStep(step), maxAttempts)), step.key, maxAttempts) <==>
            !OverdueStep(db, step, step.key, maxAttempts)
  {
    StaysWithin(db.outbox[step.key].claim, ClaimStep(step), maxAttempts);
  }

  lemma ValidatedStaysWithin(c: Claim, t: nat, passes: bool, maxAttempts: nat)
    requires Within(c, maxAttempts)
    ensures Within(ValidatedClaim(c, t, passes), maxAttempts)
  {
  }

  lemma ValidationStaysWithin(db: Db, key: EventKey, t: nat, seen: MerchantStatus, maxAttempts: nat)
    requires Mirrored(db) && PapersOk(db) && EventWithin(db, key, maxAttempts)
    ensures EventWithin(Commit(db, ValidateTxn(db, key, t, seen)), key, maxAttempts)
  {
    if ValidateTxn(db, key, t, seen).Ok? {
      ValidationMoves(db, key, t, seen);
      ValidationOutboxIs(db, key, t, seen, ValidationMove(db, key, t, seen));
      ValidatedStaysWithin(db.outbox[key].claim, t, SeenVerdict(db, key.id, seen).Pass?, maxAttempts);
    }
  }

  lemma HandlerStaysWithin(db: Db, step: Step, maxAttempts: nat)
    requires Mirrored(db) && PapersOk(db) && IsHandlerStep(step) && EventWithin(db, step.key, maxAttempts)
    ensures EventWithin(Commit(db, HandlerTxn(db, step)), step.key, maxAttempts)
  {
    match step
    case ValidateReceived(key, t, seen) => ValidationStaysWithin(db, key, t, seen, maxAttempts);
    case MaterialiseWebhooks(key, t) =>
      if MaterialiseTxn(db, key, t).Ok? {
        MaterialisationOutboxIs(db, key, t);
      }
  }

  lemma OwnClaimStaysWithin(db: Db, d: Db, step: Step, maxAttempts: nat)
    requires maxAttempts >= 1 && IsClaimStep(step) && d == Next(db, step, maxAttempts)
    requires EventWithin(db, step.key, maxAttempts)
    ensures EventWithin(d, step.key, maxAttempts) <==> !OverdueStep(db, step, step.key, maxAttempts)
  {
    ClaimStaysWithin(db, step, maxAttempts);
  }

  lemma OwnHandlerStaysWithin(db: Db, d: Db, step: Step, maxAttempts: nat)
    requires Mirrored(db) && PapersOk(db) && IsHandlerStep(step) && d == Next(db, step, maxAttempts)
    requires EventWithin(db, step.key, maxAttempts)
    ensures EventWithin(d, step.key, maxAttempts) && !OverdueStep(db, step, step.key, maxAttempts)
  {
    HandlerStaysWithin(db, step, maxAttempts);
  }

  /** One step of the system takes an event beyond the maximum exactly when it is an overdue report on it. */
  lemma StepStaysWithin(db: Db, d: Db, step: Step, key: EventKey, maxAttempts: nat)
    requires Mirrored(db) && PapersOk(db) && maxAttempts >= 1 && d == Next(db, step, maxAttempts)
    requires EventWithin(db, key, maxAttempts)
    ensures EventWithin(d, key, maxAttempts) <==> !OverdueStep(db, step, key, maxAttempts)
  {
    if Handles(step, key) && IsClaimStep(step) {
      OwnClaimStaysWithin(db, d, step, maxAttempts);
    } else if Handles(step, key) {
      OwnHandlerStaysWithin(db, d, step, maxAttempts);
    } else {
      StepKeepsRow(db, step, key, maxAttempts);
    }
  }

  ghost predicate AlwaysWithin(db: Db, steps: seq<Step>, key: EventKey, maxAttempts: nat) {
    forall i | 0 <= i <= |steps| :: EventWithin(States(db, steps, maxAttempts)[i], key, maxAttempts)
  }

  ghost predicate NeverOverdue(db: Db, steps: seq<Step>, key: EventKey, maxAttempts: nat) {
    forall i | 0 <= i < |steps| :: !OverdueStep(States(db, steps, maxAttempts)[i], steps[i], key, maxAttempts)
  }

  lemma StateStaysWithin(db: Db, steps: seq<Step>, i: nat, key: EventKey, maxAttempts: nat)
    requires Inv(db, maxAttempts) && maxAttempts >= 1 && i < |steps|
    requires EventWithin(States(db, steps, maxAttempts)[i], key, maxAttempts)
    ensures EventWithin(States(db, steps, maxAttempts)[i + 1], key, maxAttempts) <==>
            !OverdueStep(States(db, steps, maxAttempts)[i], steps[i], key, maxAttempts)
  {
    var before, after := System.Run(db, steps[..i], maxAttempts), System.Run(db, steps[..i + 1], maxAttempts);
    RunIsLater(db, steps[..i], maxAttempts);
    System.RunTake(db, steps, i, maxAttempts);
    StepStaysWithin(before, after, steps[i], key, maxAttempts);
  }

  lemma WithinThroughout(db: Db, steps: seq<Step>, key: EventKey, maxAttempts: nat)
    requires Inv(db, maxAttempts) && maxAttempts >= 1 && EventWithin(db, key, maxAttempts)
    requires NeverOverdue(db, steps, key, maxAttempts)
    ensures AlwaysWithin(db, steps, key, maxAttempts)
  {
    var states := States(db, steps, maxAttempts);
    var flags := seq(|steps| + 1, i requires 0 <= i <= |steps| => EventWithin(states[i], key, maxAttempts));
    assert states[0] == db;
    forall j | 0 <= j < |steps| ensures flags[j] ==> flags[j + 1] {
      if flags[j] {
        StateStaysWithin(db, steps, j, key, maxAttempts);
      }
    }
    forall i | 0 <= i <= |steps| ensures EventWithin(states[i], key, maxAttempts) {
      System.HandedOn(flags, i);
    }
  }

  /** Along a run of the system the configured maximum bounds the attempts of an event exactly when no step of the
      run is an overdue report on it. */
  lemma RunStaysWithin(db: Db, steps: seq<Step>, key: EventKey, maxAttempts: nat)
    requires Inv(db, maxAttempts) && maxAttempts >= 1 && EventWithin(db, key, maxAttempts)
    ensures AlwaysWithin(db, steps, key, maxAttempts) <==> NeverOverdue(db, steps, key, maxAttempts)
  {
    if NeverOverdue(db, steps, key, maxAttempts) {
      WithinThroughout(db, steps, key, maxAttempts);
    }
    if AlwaysWithin(db, steps, key, maxAttempts) {
      forall i | 0 <= i < |steps|
        ensures !OverdueStep(States(db, steps, maxAttempts)[i], steps[i], key, maxAttempts)
      {
        assert EventWithin(States(db, steps, maxAttempts)[i + 1], key, maxAttempts);
        StateStaysWithin(db, steps, i, key, maxAttempts);
      }
    }
  }

  // ---------- The bound is reached ----------

  /** The steps of the system that perform the given steps on one row. */
  function OnRow(key: EventKey, steps: seq<RowStep>): seq<Step>
    requires forall i | 0 <= i < |steps| :: !steps[i].Advance? && !steps[i].Complete?
  {
    seq(|steps|, i requires 0 <= i < |steps| => RowStepOn(key, steps[i]))
  }

  function RowStepOn(key: EventKey, step: RowStep): (s: Step)
    requires !step.Advance? && !step.Complete?
    ensures IsClaimStep(s) && s.key == key && ClaimStep(s) == step
  {
    match step
    case Acquire => ClaimRow(key)
    case Expire => ExpireLease(key)
    case MarkProcessed(t) => MarkRowProcessed(key, t)
    case MarkFailed(t) => MarkRowFailed(key, t)
    case Crash(t) => CrashHandler(key, t)
  }

  lemma ClaimNext(db: Db, d: Db, step: Step, maxAttempts: nat)
    requires IsClaimStep(step) && step.key in db.outbox && d == Next(db, step, maxAttempts)
    ensures step.key in d.outbox
    ensures d.outbox[step.key].claim == Apply(db.outbox[step.key].claim, ClaimStep(step), maxAttempts)
  {
  }

  lemma OnRowSnoc(key: EventKey, steps: seq<RowStep>)
    requires steps != [] && forall i | 0 <= i < |steps| :: !steps[i].Advance? && !steps[i].Complete?
    ensures OnRow(key, steps) == OnRow(key, steps[..|steps| - 1]) + [RowStepOn(key, steps[|steps| - 1])]
  {
  }

  lemma SystemRunSnoc(db: Db, steps: seq<Step>, step: Step, maxAttempts: nat, c: Claim)
    requires IsClaimStep(step) && step.key in System.Run(db, steps, maxAttempts).outbox
    requires System.Run(db, steps, maxAttempts).outbox[step.key].claim == c
    ensures var d := System.Run(db, steps + [step], maxAttempts);
            step.key in d.outbox && d.outbox[step.key].claim == Apply(c, ClaimStep(step), maxAttempts)
  {
    System.RunSnoc(db, steps, step, maxAttempts);
    ClaimNext(System.Run(db, steps, maxAttempts), System.Run(db, steps + [step], maxAttempts), step, maxAttempts);
  }

  ghost predicate ClaimIs(db: Db, key: EventKey, c: Claim) {
    key in db.outbox && db.outbox[key].claim == c
  }

  /** Every run of one row is a run of the system. */
  lemma {:induction false} RowRunIsSystemRun(db: Db, key: EventKey, steps: seq<RowStep>, maxAttempts: nat)
    requires key in db.outbox && forall i | 0 <= i < |steps| :: !steps[i].Advance? && !steps[i].Complete?
    ensures ClaimIs(System.Run(db, OnRow(key, steps), maxAttempts), key,
                    RunRow(db.outbox[key].claim, steps, maxAttempts))
    decreases |steps|
  {
    if steps != [] {
      var before, last := steps[..|steps| - 1], steps[|steps| - 1];
      RowRunIsSystemRun(db, key, before, maxAttempts);
      OnRowSnoc(key, steps);
      SystemRunSnoc(db, OnRow(key, before), RowStepOn(key, last), maxAttempts,
                    RunRow(db.outbox[key].claim, before, maxAttempts));
    }
  }

  lemma {:induction false} LostLeasesClaim(k: nat)
    ensures forall i | 0 <= i < |LostLeases(k)| :: !LostLeases(k)[i].Advance? && !LostLeases(k)[i].Complete?
  {
    if k > 0 {
      LostLeasesClaim(k - 1);
    }
  }

  lemma {:induction false} LateFailuresClaim(maxAttempts: nat, k: nat)
    requires maxAttempts >= 1
    ensures forall i | 0 <= i < |LateFailures(maxAttempts, k)| ::
              !LateFailures(maxAttempts, k)[i].Advance? && !LateFailures(maxAttempts, k)[i].Complete?
  {
    if k == 0 {
      LostLeasesClaim(maxAttempts - 1);
    } else {
      LateFailuresClaim(maxAttempts, k - 1);
    }
  }

  lemma LateRunClaims(db: Db, key: EventKey, maxAttempts: nat, late: seq<RowStep>, d: Db)
    requires maxAttempts >= 1 && ClaimIs(db, key, FRESH) && late == LateFailures(maxAttempts, maxAttempts - 1)
    requires ClaimIs(d, key, RunRow(db.outbox[key].claim, late, maxAttempts))
    ensures key in d.outbox && d.outbox[key].claim.attempts == 2 * maxAttempts - 1
  {
    AfterLateFailures(maxAttempts, maxAttempts - 1);
  }

  lemma LateRun(db: Db, key: EventKey, maxAttempts: nat) returns (d: Db)
    requires Reachable(db, maxAttempts) && maxAttempts >= 1 && ClaimIs(db, key, FRESH)
    ensures Reachable(d, maxAttempts) && key in d.outbox && d.outbox[key].claim.attempts == 2 * maxAttempts - 1
  {
    var late := LateFailures(maxAttempts, maxAttempts - 1);
    LateFailuresClaim(maxAttempts, maxAttempts - 1);
    d := System.Run(db, OnRow(key, late), maxAttempts);
    RowRunIsSystemRun(db, key, late, maxAttempts);
    LateRunClaims(db, key, maxAttempts, late, d);
    System.RunIsReachable(db, OnRow(key, late), maxAttempts);
  }

  lemma AskedIsFresh()
    ensures ClaimIs(Asked(Plain(1, 1)), RECEIVED, FRESH)
  {
  }

  /** Some run of the system claims an event 2 * maxAttempts - 1 times. */
  lemma BoundIsReachable(maxAttempts: nat)
    requires maxAttempts >= 1
    ensures exists db ::
              Reachable(db, maxAttempts) && RECEIVED in db.outbox
              && db.outbox[RECEIVED].claim.attempts == 2 * maxAttempts - 1
  {
    AskedArrives(Plain(1, 1), maxAttempts);
    AskedIsFresh();
    var late := LateRun(Asked(Plain(1, 1)), RECEIVED, maxAttempts);
  }
}
