/** The API's validation reads the payment before its transaction, and the transaction does not look again: what it
    does to a state that has moved on in between. */
module StaleValidation {
  import opened Store
  import opened OutboxProtocol
  import opened Effects
  import opened Mirroring
  import opened Agreement
  import opened Records
  import opened Invariants
  import opened Safety
  import opened System
  import opened Moves
  import opened Delivery
  import opened Witnesses
  import opened Engine = PaymentEngine

  ghost predicate BothOutcomes(db: Db, id: PaymentId) {
    Lifecycle(id, PaymentValidated) in db.outbox && Lifecycle(id, PaymentValidationFailed) in db.outbox
  }

  lemma WriteOnReceived(db: Db, id: PaymentId)
    requires Mirrored(db) && HasStatus(db, id, Received)
    ensures WriteValidated(db, id) == Ok(ToVerdict(db, id, None))
    ensures Mirrored(ToVerdict(db, id, None)) && !BothOutcomes(ToVerdict(db, id, None), id)
  {
    SliceOf(db, id);
    ToVerdictMirrors(db, id, None);
  }

  lemma WriteOnRejected(db: Db, id: PaymentId)
    requires Mirrored(db) && HasStatus(db, id, ValidationFailed)
    ensures var r := WriteValidated(db, id); r.Ok? && BothOutcomes(r.value, id) && HasStatus(r.value, id, Validated)
  {
    SliceOf(db, id);
  }

  lemma WriteOnAccepted(db: Db, id: PaymentId)
    requires Mirrored(db) && id in db.payments
    requires !db.payments[id].status.Received? && !db.payments[id].status.ValidationFailed?
    ensures WriteValidated(db, id) == Err(UniqueViolation) && !BothOutcomes(db, id)
  {
    SliceOf(db, id);
  }

  lemma BothAreNotMirrored(db: Db, id: PaymentId)
    requires id in db.payments && BothOutcomes(db, id)
    ensures !Mirrored(db)
  {
    if Mirrored(db) {
      SliceOf(db, id);
    }
  }

  /** Whatever happened since the read, the transaction leaves consistent tables exactly when the payment has not been
      rejected in the meantime; if it has, the payment is given both outcomes. */
  lemma StaleWriteIsSafe(db: Db, id: PaymentId)
    requires Mirrored(db) && id in db.payments
    ensures var d := Commit(db, WriteValidated(db, id));
            && (Mirrored(d) <==> !HasStatus(db, id, ValidationFailed))
            && (BothOutcomes(d, id) <==> HasStatus(db, id, ValidationFailed))
  {
    if HasStatus(db, id, Received) {
      WriteOnReceived(db, id);
    } else if HasStatus(db, id, ValidationFailed) {
      WriteOnRejected(db, id);
      BothAreNotMirrored(WriteValidated(db, id).value, id);
    } else {
      WriteOnAccepted(db, id);
    }
  }

  // ---------- The rejection does happen in between ----------

  lemma RejectionRejects(db: Db, key: EventKey, t: nat)
    requires Mirrored(db) && IsReceived(key) && HandlerAt(db, key, t, AtStart) && HasStatus(db, key.id, Received)
    ensures HasStatus(Commit(db, ValidateTxn(db, key, t, Suspended)), key.id, ValidationFailed)
  {
    SuspendedIsRejected(db, key.id);
    TransitionIs(db, key.id, SeenVerdict(db, key.id, Suspended));
  }

  lemma RejectionNextRejects(db: Db, d: Db, key: EventKey, t: nat, maxAttempts: nat)
    requires Mirrored(db) && IsReceived(key) && HandlerAt(db, key, t, AtStart) && HasStatus(db, key.id, Received)
    requires d == Next(db, ValidateReceived(key, t, Suspended), maxAttempts)
    ensures HasStatus(d, key.id, ValidationFailed)
  {
    RejectionRejects(db, key, t);
  }

  lemma ClaimLeads(db: Db, key: EventKey, maxAttempts: nat)
    requires key in db.outbox
    ensures Leads(db, StepRow(db, key, Acquire, maxAttempts), maxAttempts)
  {
    System.LeadsNowhere(db, maxAttempts);
    System.LeadsNext(db, db, ClaimRow(key), maxAttempts);
  }

  /** A claimed payment is rejected when its merchant is suspended. */
  lemma SuspensionRejects(db: Db, key: EventKey, t: nat, maxAttempts: nat) returns (d: Db)
    requires Arrives(db, maxAttempts) && maxAttempts >= 1
    requires IsReceived(key) && HandlerAt(db, key, t, AtStart) && HasStatus(db, key.id, Received)
    ensures Leads(db, d, maxAttempts) && Mirrored(d) && HasStatus(d, key.id, ValidationFailed)
  {
    var m := db.payments[key.id].details.merchantId;
    var suspended := Next(db, SetMerchantStatus(m, Suspended), maxAttempts);
    SuspensionNext(db, suspended, m, maxAttempts);
    System.LeadsNowhere(db, maxAttempts);
    System.LeadsNext(db, db, SetMerchantStatus(m, Suspended), maxAttempts);
    ArrivesNext(db, SetMerchantStatus(m, Suspended), maxAttempts);
    d := RejectionLeads(db, suspended, key, t, maxAttempts);
  }

  lemma RejectionLeads(from: Db, db: Db, key: EventKey, t: nat, maxAttempts: nat) returns (d: Db)
    requires Leads(from, db, maxAttempts) && Inv(db, maxAttempts) && maxAttempts >= 1
    requires IsReceived(key) && HandlerAt(db, key, t, AtStart) && HasStatus(db, key.id, Received)
    ensures Leads(from, d, maxAttempts) && Mirrored(d) && HasStatus(d, key.id, ValidationFailed)
  {
    d := Next(db, ValidateReceived(key, t, Suspended), maxAttempts);
    RejectionNextRejects(db, d, key, t, maxAttempts);
    System.LeadsNext(from, db, ValidateReceived(key, t, Suspended), maxAttempts);
    StepKeepsInv(db, ValidateReceived(key, t, Suspended), maxAttempts);
  }

  lemma TakenIsReceived(maxAttempts: nat)
    ensures HandlerAt(Taken(1, maxAttempts), RECEIVED, 1, AtStart) && HasStatus(Taken(1, maxAttempts), "p", Received)
    ensures RECEIVED in Asked(Plain(1, 1)).outbox
  {
  }

  /** The API reads a payment that meets the requirements; before its transaction the worker rejects that payment. */
  lemma BothOutcomesAreReached(maxAttempts: nat)
    requires maxAttempts >= 1
    ensures exists db, d ::
              && Reachable(db, maxAttempts) && ReadPasses(db, "p") && Leads(db, d, maxAttempts)
              && BothOutcomes(Commit(d, WriteValidated(d, "p")), "p")
  {
    AskedArrives(Plain(1, 1), maxAttempts);
    AskedPasses(Plain(1, 1));
    TakenIsReceived(maxAttempts);
    ClaimLeads(Asked(Plain(1, 1)), RECEIVED, maxAttempts);
    TakenArrives(1, maxAttempts);
    var d := SuspensionRejects(Taken(1, maxAttempts), RECEIVED, 1, maxAttempts);
    System.LeadsOn(Asked(Plain(1, 1)), Taken(1, maxAttempts), d, maxAttempts);
    StaleWriteIsSafe(d, "p");
  }
}
