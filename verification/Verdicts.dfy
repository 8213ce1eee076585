/** What the worker's validation of a RECEIVED payment commits: the first broken rule decides, and a payment that is
    rejected moves no money. */
module Verdicts {
  import opened Text
  import opened Store
  import opened OutboxProtocol
  import opened Funding
  import opened Effects
  import opened Agreement
  import opened History
  import opened OutboxRepository
  import opened OutboxWorker
  import Records
  import Sys = System
  import Theorems
  import Worker = WorkerLifecycle

  /** A handler has just started on the PAYMENT_RECEIVED event of a payment that is still RECEIVED. */
  predicate AwaitsVerdict(db: Db, ticket: Ticket) {
    && Records.IsReceived(ticket.key) && HasTicket(ticket, db.outbox, AtStart)
    && ticket.key.id in db.payments && db.payments[ticket.key.id].status.Received?
    && db.payments[ticket.key.id].details.merchantId in db.merchants
  }

  /** The code of the first rule that the payment breaks; the status is the merchant's own at that moment. */
  function BrokenRule(d: Details, m: Merchant): Option<string> {
    if d.amount <= 0 then Some("INVALID_AMOUNT")
    else if d.currency != "USD" then Some("UNSUPPORTED_CURRENCY")
    else if d.externalReference.None? || Trim(d.externalReference.value) == "" then Some("MISSING_EXTERNAL_REFERENCE")
    else if m.status != Active then Some("MERCHANT_NOT_ACTIVE")
    else if d.direction.Debit? && !m.profile.allowAchDebit then Some("ACH_DEBIT_NOT_ALLOWED")
    else if d.direction.Credit? && !m.profile.allowAchCredit then Some("ACH_CREDIT_NOT_ALLOWED")
    else if d.amount > m.profile.perPaymentLimit then Some("PER_PAYMENT_LIMIT_EXCEEDED")
    else if Trim(d.receiverAccountRef) == "" || Trim(d.routingNumber) == "" then Some("MISSING_ACCOUNT_REFERENCE")
    else None
  }

  /** The code of the first of limit, account and funds that does not let the payment pass. */
  ghost function Refusal(db: Db, p: Payment): Option<string>
    requires p.details.merchantId in db.merchants
  {
    var d := p.details;
    var a := AccountId(d.merchantId, d.currency);
    if Utilized(db.usage, d.merchantId, BusinessDate(p)) + d.amount
       > db.merchants[d.merchantId].profile.dailyAmountLimit then Some("EXCEEDS_DAILY_AMOUNT_LIMIT")
    else if d.direction.Debit? then None
    else if a !in db.accounts || db.accounts[a] != AccountActive then Some("FUNDING_ACCOUNT_UNAVAILABLE")
    else if Posted(db, a) - Reserved(db, a) < d.amount then Some("INSUFFICIENT_FUNDS")
    else None
  }

  /** The payment was rejected with this code, and no reservation, ledger entry or usage changed. */
  predicate Rejected(db: Db, d: Db, id: PaymentId, code: string) {
    && id in d.payments && d.payments[id].status.ValidationFailed?
    && d.payments[id].validationCode == Some(code) && d.payments[id].failureCode == Some(code)
    && d.holds == db.holds && d.ledger == db.ledger && d.usage == db.usage && d.charges == db.charges
    && Lifecycle(id, PaymentValidationFailed) in d.outbox
    && d.outbox[Lifecycle(id, PaymentValidationFailed)].payload.LifecyclePayload?
    && d.outbox[Lifecycle(id, PaymentValidationFailed)].payload.validationCode == Some(code)
  }

  /** The payment is VALIDATED and charged; a credit holds its amount. */
  predicate Accepted(db: Db, d: Db, id: PaymentId)
    requires id in db.payments
  {
    && id in d.payments && d.payments[id].status.Validated? && d.payments[id].validationCode.None?
    && d.charges == db.charges + [id]
    && (if db.payments[id].details.direction.Debit? then d.holds == db.holds && d.ledger == db.ledger
        else id in d.holds && d.holds[id].status.HoldActive? && d.holds[id].amount == db.payments[id].details.amount)
  }

  /** By the rules, then by limit, account and funds. */
  ghost predicate HasVerdict(db: Db, d: Db, id: PaymentId)
    requires id in db.payments && db.payments[id].details.merchantId in db.merchants
  {
    var p := db.payments[id];
    var broken := BrokenRule(p.details, db.merchants[p.details.merchantId]);
    if broken.Some? then Rejected(db, d, id, broken.value)
    else if Refusal(db, p).Some? then Rejected(db, d, id, Refusal(db, p).value)
    else Accepted(db, d, id)
  }

  lemma RulesDecide(db: Db, key: EventKey)
    requires key.Lifecycle? && key.id in db.payments && db.payments[key.id].details.merchantId in db.merchants
    ensures var p := db.payments[key.id];
            var broken := BrokenRule(p.details, db.merchants[p.details.merchantId]);
            Sys.SeenVerdict(db, key.id, StatusRead(db, key))
            == if broken.Some? then Worker.Fail(broken.value) else Worker.Pass
  {
  }

  lemma FundsDecide(db: Db, id: PaymentId)
    requires id in db.payments && db.payments[id].details.merchantId in db.merchants
    ensures Worker.Decide(db, id)
         == if Refusal(db, db.payments[id]).Some? then Worker.Fail(Refusal(db, db.payments[id]).value) else Worker.Pass
  {
  }

  lemma VerdictRejects(db: Db, id: PaymentId, code: string)
    requires id in db.payments
    ensures Rejected(db, ToVerdict(db, id, Some(code)), id, code)
  {
  }

  lemma DebitIsAccepted(db: Db, id: PaymentId)
    requires Untouched(db, id) && db.payments[id].details.direction.Debit?
    ensures Accepted(db, DebitAdmitted(db, id), id)
  {
  }

  lemma CreditIsAccepted(db: Db, id: PaymentId)
    requires Untouched(db, id) && db.payments[id].details.direction.Credit?
    ensures Accepted(db, Admitted(ToVerdict(db, id, None), id), id)
  {
  }

  lemma DecisionHasVerdict(db: Db, id: PaymentId)
    requires Untouched(db, id)
    requires BrokenRule(db.payments[id].details, db.merchants[db.payments[id].details.merchantId]).None?
    ensures HasVerdict(db, DecisionEffect(db, id), id)
  {
    FundsDecide(db, id);
    if Worker.Decide(db, id).Fail? {
      VerdictRejects(db, id, Worker.Decide(db, id).code);
    } else if db.payments[id].details.direction.Debit? {
      DebitIsAccepted(db, id);
    } else {
      CreditIsAccepted(db, id);
    }
  }

  // ---------- What comes after the verdict leaves it ----------

  /** Only claims, phases and deliveries differ. */
  ghost predicate KeepsVerdict(d: Db, e: Db) {
    && e.payments == d.payments && e.holds == d.holds && e.ledger == d.ledger && e.usage == d.usage
    && e.charges == d.charges
    && forall k | k in d.outbox :: k in e.outbox && e.outbox[k].payload == d.outbox[k].payload
  }

  lemma VerdictStays(db: Db, d: Db, e: Db, id: PaymentId)
    requires id in db.payments && db.payments[id].details.merchantId in db.merchants
    requires HasVerdict(db, d, id) && KeepsVerdict(d, e)
    ensures HasVerdict(db, e, id)
  {
  }

  lemma KeepsVerdictTwice(c: Db, d: Db, e: Db)
    requires KeepsVerdict(c, d) && KeepsVerdict(d, e)
    ensures KeepsVerdict(c, e)
  {
  }

  lemma RowStepKeepsVerdict(d: Db, key: EventKey, step: RowStep, maxAttempts: nat)
    requires key in d.outbox
    ensures KeepsVerdict(d, StepRow(d, key, step, maxAttempts))
  {
  }

  lemma DeliveringKeepsVerdict(d: Db, key: EventKey, active: set<EndpointId>)
    requires key in d.outbox
    ensures KeepsVerdict(d, Sys.Delivered(d, key, active))
  {
  }

  lemma MaterialisationKeepsVerdict(d: Db, key: EventKey, t: nat)
    ensures KeepsVerdict(d, Commit(d, Sys.MaterialiseTxn(d, key, t)))
  {
    var r := Sys.MaterialiseTxn(d, key, t);
    if r.Ok? {
      if key.Lifecycle? {
        var active := Sys.ActiveEndpoints(d, d.outbox[key].payload.merchantId);
        DeliveringKeepsVerdict(d, key, active);
        RowStepKeepsVerdict(Sys.Delivered(d, key, active), key, Advance(t, PastMaterialisation), 0);
      } else {
        RowStepKeepsVerdict(d, key, Advance(t, PastMaterialisation), 0);
      }
    }
  }

  // ---------- The transaction of a handler ----------

  /** The verdict can be written: a rejection by the rules always, any other only under a current claim. */
  predicate CanDecide(db: Db, key: EventKey)
    requires key.Lifecycle? && key.id in db.payments && db.payments[key.id].details.merchantId in db.merchants
    requires key in db.outbox
  {
    || BrokenRule(db.payments[key.id].details, db.merchants[db.payments[key.id].details.merchantId]).Some?
    || db.outbox[key].claim.status.Processing?
  }

  lemma RejectionHasVerdict(db: Db, ticket: Ticket)
    requires Mirrored(db) && AwaitsVerdict(db, ticket)
    requires BrokenRule(db.payments[ticket.key.id].details,
                        db.merchants[db.payments[ticket.key.id].details.merchantId]).Some?
    ensures var r := ValidatedFor(db, ticket); r.Ok? && HasVerdict(db, r.value, ticket.key.id)
  {
    var id := ticket.key.id;
    var code := BrokenRule(db.payments[id].details, db.merchants[db.payments[id].details.merchantId]).value;
    RulesDecide(db, ticket.key);
    TransitionIs(db, id, Worker.Fail(code));
    VerdictRejects(db, id, code);
    RowStepKeepsVerdict(ToVerdict(db, id, Some(code)), ticket.key, Advance(ticket.attempts, PastValidation), 0);
  }

  lemma CompletionKeepsVerdict(d: Db, key: EventKey, t: nat)
    requires Worker.CompleteOutbox(d, key).Ok?
    ensures KeepsVerdict(d, StepRow(Worker.CompleteOutbox(d, key).value, key, Advance(t, PastValidation), 0))
  {
    RowStepKeepsVerdict(d, key, Complete, 0);
    RowStepKeepsVerdict(StepRow(d, key, Complete, 0), key, Advance(t, PastValidation), 0);
  }

  lemma PassingCompletes(db: Db, key: EventKey)
    requires Records.IsReceived(key) && Untouched(db, key.id) && key in db.outbox
    requires db.outbox[key].claim.status.Processing?
    ensures Worker.CompleteOutbox(DecisionEffect(db, key.id), key).Ok?
  {
    Theorems.DecisionKeepsRow(db, key.id, key);
    assert Theorems.RowAt(DecisionEffect(db, key.id), key) == Some(db.outbox[key]);
  }

  lemma PassingIs(db: Db, ticket: Ticket)
    requires AwaitsVerdict(db, ticket) && Untouched(db, ticket.key.id)
    requires BrokenRule(db.payments[ticket.key.id].details,
                        db.merchants[db.payments[ticket.key.id].details.merchantId]).None?
    requires Worker.CompleteOutbox(DecisionEffect(db, ticket.key.id), ticket.key).Ok?
    ensures ValidatedFor(db, ticket) == Ok(StepRow(Worker.CompleteOutbox(DecisionEffect(db, ticket.key.id),
                                                                         ticket.key).value,
                                                   ticket.key, Advance(ticket.attempts, PastValidation), 0))
  {
    RulesDecide(db, ticket.key);
    DecisionIs(db, ticket.key.id, ticket.key);
  }

  lemma PassingHasVerdict(db: Db, ticket: Ticket)
    requires Mirrored(db) && AwaitsVerdict(db, ticket) && db.outbox[ticket.key].claim.status.Processing?
    requires BrokenRule(db.payments[ticket.key.id].details,
                        db.merchants[db.payments[ticket.key.id].details.merchantId]).None?
    ensures var r := ValidatedFor(db, ticket); r.Ok? && HasVerdict(db, r.value, ticket.key.id)
  {
    var id, key := ticket.key.id, ticket.key;
    ReceivedIsUntouched(db, id);
    PassingCompletes(db, key);
    PassingIs(db, ticket);
    DecisionHasVerdict(db, id);
    CompletionKeepsVerdict(DecisionEffect(db, id), key, ticket.attempts);
    VerdictStays(db, DecisionEffect(db, id), ValidatedFor(db, ticket).value, id);
  }

  /** The whole of a handler's work leaves the payment with the verdict that the rules, the limit and the funds give it
      on the tables as the handler found them. */
  lemma HandlingHasVerdict(db: Db, ticket: Ticket)
    requires Mirrored(db) && AwaitsVerdict(db, ticket) && CanDecide(db, ticket.key)
    ensures HasVerdict(db, HandledState(db, ticket), ticket.key.id)
  {
    var id := ticket.key.id;
    if BrokenRule(db.payments[id].details, db.merchants[db.payments[id].details.merchantId]).Some? {
      RejectionHasVerdict(db, ticket);
    } else {
      PassingHasVerdict(db, ticket);
    }
    var d := ValidatedFor(db, ticket).value;
    MaterialisationKeepsVerdict(d, ticket.key, ticket.attempts);
    VerdictStays(db, d, HandledState(db, ticket), id);
  }

  /** In particular a payment of a merchant that is not active never passes, and moves no money. */
  lemma InactiveIsRejected(db: Db, d: Db, id: PaymentId)
    requires id in db.payments && db.payments[id].details.merchantId in db.merchants
    requires HasVerdict(db, d, id) && db.merchants[db.payments[id].details.merchantId].status != Active
    ensures id in d.payments && d.payments[id].status.ValidationFailed? && d.payments[id].validationCode.Some?
    ensures d.holds == db.holds && d.ledger == db.ledger && d.usage == db.usage
    ensures var p := db.payments[id].details;
            p.amount > 0 && p.currency == "USD" && p.externalReference.Some? && Trim(p.externalReference.value) != "" ==>
              d.payments[id].validationCode == Some("MERCHANT_NOT_ACTIVE")
  {
  }
}
