/** What events and webhook deliveries tell: the payment's own data and the status it had just reached,
    to endpoints of its own merchant only. */
module Announcements {
  import opened Store
  import opened OutboxProtocol
  import opened Funding
  import opened Effects
  import opened Mirroring
  import opened Records
  import opened Invariants
  import opened Agreement
  import opened Safety
  import opened History
  import opened System
  import Exports
  import Creation
  import Text
  import Worker = WorkerLifecycle
  import Engine = PaymentEngine

  type PaymentTable = map<PaymentId, Payment>
  type Outbox = map<EventKey, OutboxRow>
  type Endpoints = map<EndpointId, Endpoint>

  function StatusOf(t: EventType): PaymentStatus {
    match t
    case PaymentReceived => Received
    case PaymentValidated => Validated
    case PaymentReserved => Validated
    case PaymentValidationFailed => ValidationFailed
    case PaymentSubmitted => Submitted
    case PaymentSettled => Settled
    case PaymentReturned => Returned
  }

  /** The payload names the payment's own data, the status the event is about, the payment's validation code exactly
      when validation failed and a return code exactly for a return. */
  predicate EventTrue(key: EventKey, payload: Payload, ps: PaymentTable) {
    match key
    case WebhookTest(_, _) => payload.TestPayload?
    case Lifecycle(id, t) =>
      && id in ps && payload.LifecyclePayload?
      && payload.merchantId == ps[id].details.merchantId && payload.amount == ps[id].details.amount
      && payload.currency == ps[id].details.currency && payload.direction == ps[id].details.direction
      && payload.status == StatusOf(t)
      && payload.validationCode.Some? == t.PaymentValidationFailed?
      && (t.PaymentValidationFailed? ==> payload.validationCode == ps[id].validationCode)
      && payload.returnCode.Some? == t.PaymentReturned?
  }

  ghost predicate EventsTrue(outbox: Outbox, ps: PaymentTable) {
    forall key | key in outbox :: EventTrue(key, outbox[key].payload, ps)
  }

  predicate CodeTrue(p: Payment) {
    p.validationCode.Some? == p.status.ValidationFailed?
  }

  ghost predicate CodesTrue(ps: PaymentTable) {
    forall id | id in ps :: CodeTrue(ps[id])
  }

  predicate DeliveryTrue(k: (EventKey, EndpointId), payload: Payload, outbox: Outbox, endpoints: Endpoints) {
    && k.0 in outbox && payload == outbox[k.0].payload && (k.0.Lifecycle? ==> outbox[k.0].covered.Some?)
    && k.1 in endpoints && endpoints[k.1].merchantId == payload.merchantId
  }

  ghost predicate DeliveriesTrue(outbox: Outbox, deliveries: Deliveries, endpoints: Endpoints) {
    forall k | k in deliveries :: DeliveryTrue(k, deliveries[k], outbox, endpoints)
  }

  ghost predicate Truthful(db: Db) {
    CodesTrue(db.payments) && EventsTrue(db.outbox, db.payments)
    && DeliveriesTrue(db.outbox, db.deliveries, db.endpoints)
  }

  // ---------- Preservation ----------

  ghost predicate PayloadsStay(outbox: Outbox, later: Outbox) {
    forall key | key in outbox ::
      && key in later && later[key].payload == outbox[key].payload
      && (outbox[key].covered.Some? ==> later[key].covered.Some?)
  }

  /** The same data, and a validation code that is there stays. */
  predicate SamePaper(p: Payment, q: Payment) {
    q.details == p.details && (p.validationCode.Some? ==> q.validationCode == p.validationCode)
  }

  ghost predicate DetailsStay(ps: PaymentTable, qs: PaymentTable) {
    forall id | id in ps :: id in qs && SamePaper(ps[id], qs[id])
  }

  lemma EventsStayTrue(outbox: Outbox, later: Outbox, ps: PaymentTable, qs: PaymentTable)
    requires EventsTrue(outbox, ps) && DetailsStay(ps, qs)
    requires forall key | key in later ::
               (key in outbox && later[key].payload == outbox[key].payload) || EventTrue(key, later[key].payload, qs)
    ensures EventsTrue(later, qs)
  {
    forall key | key in later ensures EventTrue(key, later[key].payload, qs) {
      if key in outbox && later[key].payload == outbox[key].payload {
        assert EventTrue(key, outbox[key].payload, ps);
      }
    }
  }

  lemma DeliveriesStayTrue(outbox: Outbox, later: Outbox, deliveries: Deliveries, endpoints: Endpoints)
    requires DeliveriesTrue(outbox, deliveries, endpoints) && PayloadsStay(outbox, later)
    ensures DeliveriesTrue(later, deliveries, endpoints)
  {
    forall k | k in deliveries ensures DeliveryTrue(k, deliveries[k], later, endpoints) {
      assert DeliveryTrue(k, deliveries[k], outbox, endpoints);
    }
  }

  /** Nothing is announced and no payment's status, code or details change. */
  ghost predicate Silent(db: Db, d: Db) {
    && d.payments == db.payments && d.outbox.Keys == db.outbox.Keys && PayloadsStay(db.outbox, d.outbox)
    && d.deliveries == db.deliveries && d.endpoints == db.endpoints
  }

  lemma SilenceIsTruthful(db: Db, d: Db)
    requires Truthful(db) && Silent(db, d)
    ensures Truthful(d)
  {
    EventsStayTrue(db.outbox, d.outbox, db.payments, d.payments);
    DeliveriesStayTrue(db.outbox, d.outbox, db.deliveries, db.endpoints);
  }

  /** One payment reaches the status that its new event announces. */
  ghost predicate Announces(db: Db, d: Db, id: PaymentId, t: EventType, p: Payment, returnCode: Option<string>) {
    && (id in db.payments ==> SamePaper(db.payments[id], p))
    && d.payments == db.payments[id := p] && p.status == StatusOf(t) && CodeTrue(p)
    && Lifecycle(id, t) !in db.outbox && d.outbox == db.outbox[Lifecycle(id, t) := NewEvent(p, returnCode)]
    && returnCode.Some? == t.PaymentReturned?
    && d.deliveries == db.deliveries && d.endpoints == db.endpoints
  }

  lemma AnnouncingIsTruthful(db: Db, d: Db, id: PaymentId, t: EventType, p: Payment, returnCode: Option<string>)
    requires Truthful(db) && Announces(db, d, id, t, p, returnCode)
    ensures Truthful(d)
  {
    assert EventTrue(Lifecycle(id, t), NewEvent(p, returnCode).payload, d.payments);
    EventsStayTrue(db.outbox, d.outbox, db.payments, d.payments);
    DeliveriesStayTrue(db.outbox, d.outbox, db.deliveries, db.endpoints);
  }

  // ---------- The effects ----------

  lemma ToVerdictIsTruthful(db: Db, id: PaymentId, code: Option<string>)
    requires Truthful(db) && Mirrored(db) && id in db.payments && db.payments[id].status.Received?
    ensures Truthful(ToVerdict(db, id, code))
  {
    SliceOf(db, id);
    assert CodeTrue(db.payments[id]);
    AnnouncingIsTruthful(db, ToVerdict(db, id, code), id,
                         if code.None? then PaymentValidated else PaymentValidationFailed,
                         WithVerdict(db.payments[id], code), None);
  }

  lemma AdmittedIsTruthful(db: Db, id: PaymentId)
    requires Truthful(db) && id in db.payments && db.payments[id].status.Validated?
    requires Lifecycle(id, PaymentReserved) !in db.outbox
    ensures Truthful(Admitted(db, id))
  {
    assert CodeTrue(db.payments[id]);
    assert db.payments[id := db.payments[id]] == db.payments;
    AnnouncingIsTruthful(db, Admitted(db, id), id, PaymentReserved, db.payments[id], None);
  }

  lemma SettledIsTruthful(db: Db, d: Db, id: PaymentId)
    requires Truthful(db) && Mirrored(db) && id in db.payments && db.payments[id].status.Submitted?
    requires d.payments == db.payments[id := db.payments[id].(status := Settled)]
    requires d.outbox == db.outbox[Lifecycle(id, PaymentSettled) := NewEvent(d.payments[id], None)]
    requires d.deliveries == db.deliveries && d.endpoints == db.endpoints
    ensures Truthful(d)
  {
    SliceOf(db, id);
    assert CodeTrue(db.payments[id]);
    AnnouncingIsTruthful(db, d, id, PaymentSettled, d.payments[id], None);
  }

  lemma ReturnedIsTruthful(db: Db, d: Db, id: PaymentId, p: Payment, returnCode: string)
    requires Truthful(db) && Mirrored(db) && id in db.payments && db.payments[id].status.Settled?
    requires p == db.payments[id].(status := Returned, failureCode := p.failureCode)
    requires d.payments == db.payments[id := p]
    requires d.outbox == db.outbox[Lifecycle(id, PaymentReturned) := NewEvent(p, Some(returnCode))]
    requires d.deliveries == db.deliveries && d.endpoints == db.endpoints
    ensures Truthful(d)
  {
    SliceOf(db, id);
    assert CodeTrue(db.payments[id]);
    AnnouncingIsTruthful(db, d, id, PaymentReturned, p, Some(returnCode));
  }

  lemma InsertedIsTruthful(db: Db, details: Details, key: string, id: PaymentId, now: int)
    requires Truthful(db) && Mirrored(db) && id !in db.payments
    ensures Truthful(Inserted(db, details, key, id, now))
  {
    SliceOf(db, id);
    AnnouncingIsTruthful(db, Inserted(db, details, key, id, now), id, PaymentReceived,
                         Payment(details, Creation.StoredKey(details.merchantId, key), now, Received, None, None, None), None);
  }

  lemma SubmittedTrue(ps: PaymentTable, ids: set<PaymentId>, n: nat)
    requires CodesTrue(ps) && forall id | id in ids :: id in ps && ps[id].status.Validated?
    ensures var qs := Exports.MarkSubmitted(ps, ids, n);
            && CodesTrue(qs) && DetailsStay(ps, qs)
            && forall id | id in ids :: EventTrue(Lifecycle(id, PaymentSubmitted), NewEvent(qs[id], None).payload, qs)
  {
    var qs := Exports.MarkSubmitted(ps, ids, n);
    forall id | id in ps ensures CodeTrue(qs[id]) {
      assert CodeTrue(ps[id]);
    }
    forall id | id in ids
      ensures EventTrue(Lifecycle(id, PaymentSubmitted), NewEvent(qs[id], None).payload, qs)
    {
      assert CodeTrue(ps[id]);
    }
  }

  lemma SubmittedOutbox(db: Db, qs: PaymentTable, ids: set<PaymentId>)
    requires ids <= qs.Keys && forall id | id in ids :: Lifecycle(id, PaymentSubmitted) !in db.outbox
    requires forall id | id in ids :: EventTrue(Lifecycle(id, PaymentSubmitted), NewEvent(qs[id], None).payload, qs)
    ensures var later := db.outbox + Exports.SubmittedEvents(qs, ids);
            && PayloadsStay(db.outbox, later)
            && forall key | key in later ::
                 (key in db.outbox && later[key].payload == db.outbox[key].payload) || EventTrue(key, later[key].payload, qs)
  {
    var added := Exports.SubmittedEvents(qs, ids);
    forall key | key in added ensures key !in db.outbox && EventTrue(key, added[key].payload, qs) {
      SubmittedKeys(qs, ids, key);
    }
  }

  lemma SubmitIsTruthful(db: Db, ids: set<PaymentId>, m: MerchantId, day: Day)
    requires Truthful(db) && ids <= db.payments.Keys && Exports.CanRender(db.payments, db.merchants, ids)
    requires forall id | id in ids :: db.payments[id].status.Validated? && Lifecycle(id, PaymentSubmitted) !in db.outbox
    ensures Truthful(Exports.Submit(db, ids, m, day))
  {
    var d := Exports.Submit(db, ids, m, day);
    SubmittedTrue(db.payments, ids, |db.files|);
    SubmittedOutbox(db, d.payments, ids);
    EventsStayTrue(db.outbox, d.outbox, db.payments, d.payments);
    DeliveriesStayTrue(db.outbox, d.outbox, db.deliveries, db.endpoints);
  }

  lemma StepRowIsTruthful(db: Db, key: EventKey, step: RowStep, maxAttempts: nat)
    requires Truthful(db) && key in db.outbox
    ensures Truthful(StepRow(db, key, step, maxAttempts))
  {
    SilenceIsTruthful(db, StepRow(db, key, step, maxAttempts));
  }

  lemma DeliveredIsTruthful(db: Db, key: EventKey)
    requires Truthful(db) && key in db.outbox && key.Lifecycle?
    ensures Truthful(Delivered(db, key, ActiveEndpoints(db, db.outbox[key].payload.merchantId)))
  {
    var payload := db.outbox[key].payload;
    var active := ActiveEndpoints(db, payload.merchantId);
    var d := Delivered(db, key, active);
    EventsStayTrue(db.outbox, d.outbox, db.payments, d.payments);
    DeliveriesStayTrue(db.outbox, d.outbox, db.deliveries, db.endpoints);
    forall k | k in d.deliveries ensures DeliveryTrue(k, d.deliveries[k], d.outbox, d.endpoints) {
      if k !in db.deliveries {
        assert k.0 == key && k.1 in active;
      }
    }
  }

  // ---------- The transactions ----------

  lemma CreditSettledIsTruthful(db: Db, id: PaymentId)
    requires Truthful(db) && Mirrored(db) && id in db.payments && id in db.holds && db.payments[id].status.Submitted?
    ensures Truthful(CreditSettled(db, id))
  {
    SettledIsTruthful(db, CreditSettled(db, id), id);
  }

  lemma DebitSettledIsTruthful(db: Db, id: PaymentId)
    requires Truthful(db) && Mirrored(db) && id in db.payments && db.payments[id].status.Submitted?
    ensures Truthful(DebitSettled(db, id))
  {
    SettledIsTruthful(db, DebitSettled(db, id), id);
  }

  lemma SettlementIsTruthful(db: Db, id: PaymentId)
    requires Truthful(db) && Mirrored(db)
    ensures Truthful(Commit(db, SettleEffect(db, id)))
  {
    if SettleEffect(db, id).Ok? && SettleEffect(db, id).value != db {
      if id in db.holds {
        CreditSettledIsTruthful(db, id);
      } else {
        DebitSettledIsTruthful(db, id);
      }
    }
  }

  lemma CreditReturnedIsTruthful(db: Db, id: PaymentId, returnCode: string)
    requires Truthful(db) && Mirrored(db) && id in db.payments && id in db.holds && db.holds[id].status.HoldSettled?
    ensures Truthful(CreditReturned(db, id, returnCode))
  {
    ValidatedArmIsUnreachable(db, id);
    ReturnedIsTruthful(db, CreditReturned(db, id, returnCode), id, db.payments[id].(status := Returned), returnCode);
  }

  lemma DebitReturnedIsTruthful(db: Db, id: PaymentId, returnCode: string)
    requires Truthful(db) && Mirrored(db) && id in db.payments && db.payments[id].status.Settled?
    ensures Truthful(DebitReturned(db, id, returnCode))
  {
    ReturnedIsTruthful(db, DebitReturned(db, id, returnCode), id,
                       db.payments[id].(status := Returned, failureCode := Some(returnCode)), returnCode);
  }

  lemma ReturnIsTruthful(db: Db, id: PaymentId, returnCode: string)
    requires Truthful(db) && Mirrored(db)
    ensures Truthful(Commit(db, ReturnEffect(db, id, returnCode)))
  {
    if ReturnEffect(db, id, returnCode).Ok? && ReturnEffect(db, id, returnCode).value != db {
      if id in db.holds {
        CreditReturnedIsTruthful(db, id, returnCode);
      } else {
        DebitReturnedIsTruthful(db, id, returnCode);
      }
    }
  }

  lemma ReleaseIsTruthful(db: Db, id: PaymentId)
    requires Truthful(db) && Mirrored(db)
    ensures Truthful(Commit(db, Worker.Release(db, id)))
  {
    WorkerReleaseIs(db, id);
    SilenceIsTruthful(db, Commit(db, Worker.Release(db, id)));
  }

  lemma EngineValidateIsTruthful(db: Db, id: PaymentId)
    requires Truthful(db) && Mirrored(db) && PapersOk(db)
    ensures Truthful(Commit(db, Engine.Validate(db, id)))
  {
    var r := Engine.Validate(db, id);
    if id in db.payments && db.payments[id].status.Received? && r.Ok? {
      MerchantIsKnown(db, id);
      EngineValidateIs(db, id);
      ToVerdictIsTruthful(db, id, None);
    }
  }

  lemma EngineReserveIsTruthful(db: Db, id: PaymentId)
    requires Truthful(db) && Mirrored(db) && PapersOk(db)
    ensures Truthful(Commit(db, Engine.Reserve(db, id)))
  {
    var r := Engine.Reserve(db, id);
    if id in db.payments && id !in db.holds && db.payments[id].status.Validated?
       && db.payments[id].details.direction.Credit? && r.Ok? {
      MerchantIsKnown(db, id);
      EngineReserveIs(db, id);
      SliceOf(db, id);
      AdmittedIsTruthful(db, id);
    }
  }

  lemma CreateIsTruthful(db: Db, r: Creation.Request, clientKey: string, caller: MerchantId, id: PaymentId, now: int)
    requires Truthful(db) && Mirrored(db) && PapersOk(db)
    ensures Truthful(Commit(db, Creation.Create(db, r, clientKey, caller, id, now)))
  {
    if Creation.Create(db, r, clientKey, caller, id, now).Ok? {
      var key, d := Text.Trim(clientKey), Creation.Canonical(r, caller);
      InsertIs(db, d, key, id, now);
      InsertedIsTruthful(db, d, key, id, now);
    }
  }

  lemma BatchIsUnannounced(db: Db, ids: set<PaymentId>)
    requires Mirrored(db) && ids <= Exports.Eligible(db.payments)
    ensures forall id | id in ids :: id in db.payments && db.payments[id].status.Validated?
                                     && Lifecycle(id, PaymentSubmitted) !in db.outbox
  {
    forall id | id in ids ensures Lifecycle(id, PaymentSubmitted) !in db.outbox {
      SliceOf(db, id);
    }
  }

  lemma GenerateIsTruthful(db: Db, day: Day)
    requires Truthful(db) && Mirrored(db) && PapersOk(db)
    ensures Truthful(Commit(db, Exports.Generate(db, day)))
  {
    if Exports.Eligible(db.payments) != {} {
      GenerateIs(db, day);
      Exports.NextBatchIsEligible(db.payments);
      BatchIsUnannounced(db, Exports.NextBatch(db.payments));
      SubmitIsTruthful(db, Exports.NextBatch(db.payments), Exports.NextMerchant(db.payments), day);
    }
  }

  lemma DecisionIsTruthful(db: Db, id: PaymentId)
    requires Truthful(db) && Mirrored(db) && Untouched(db, id)
    ensures Truthful(DecisionEffect(db, id))
  {
    var v := Worker.Decide(db, id);
    if v.Fail? {
      ToVerdictIsTruthful(db, id, Some(v.code));
    } else {
      var validated := ToVerdict(db, id, None);
      ToVerdictIsTruthful(db, id, None);
      if db.payments[id].details.direction.Debit? {
        SilenceIsTruthful(validated, AddUsage(validated, id));
      } else {
        AdmittedIsTruthful(validated, id);
      }
    }
  }

  lemma ReserveIsTruthful(db: Db, id: PaymentId, key: EventKey)
    requires Truthful(db) && Mirrored(db) && PapersOk(db)
    ensures var r := Worker.ReserveDailyUsageAndTransition(db, id, key); r.Ok? ==> Truthful(r.value)
  {
    var r := Worker.ReserveDailyUsageAndTransition(db, id, key);
    if r.Ok? && db.payments[id].status.Received? {
      MerchantIsKnown(db, id);
      ReceivedIsUntouched(db, id);
      DecisionIs(db, id, key);
      DecisionIsTruthful(db, id);
      StepRowIsTruthful(DecisionEffect(db, id), key, Complete, 0);
    } else if r.Ok? {
      StepRowIsTruthful(db, key, Complete, 0);
    }
  }

  lemma TransitionIsTruthful(db: Db, id: PaymentId, v: Worker.Verdict)
    requires Truthful(db) && Mirrored(db)
    ensures var r := Worker.TransitionFromReceived(db, id, v); r.Ok? ==> Truthful(r.value)
  {
    if id in db.payments && db.payments[id].status.Received? {
      TransitionIs(db, id, v);
      ToVerdictIsTruthful(db, id, if v.Pass? then None else Some(v.code));
    }
  }

  lemma ValidateIsTruthful(db: Db, key: EventKey, t: nat, seen: MerchantStatus)
    requires Truthful(db) && Mirrored(db) && PapersOk(db)
    ensures Truthful(Commit(db, ValidateTxn(db, key, t, seen)))
  {
    var r := ValidateTxn(db, key, t, seen);
    if r.Ok? {
      var v := SeenVerdict(db, key.id, seen);
      ReserveIsTruthful(db, key.id, key);
      TransitionIsTruthful(db, key.id, v);
      StepRowIsTruthful(ValidationOutcome(db, key, v).value, key, Advance(t, PastValidation), 0);
    }
  }

  lemma MaterialiseIsTruthful(db: Db, key: EventKey, t: nat)
    requires Truthful(db)
    ensures Truthful(Commit(db, MaterialiseTxn(db, key, t)))
  {
    if MaterialiseTxn(db, key, t).Ok? {
      if key.Lifecycle? {
        DeliveredIsTruthful(db, key);
        StepRowIsTruthful(Delivered(db, key, ActiveEndpoints(db, db.outbox[key].payload.merchantId)), key,
                          Advance(t, PastMaterialisation), 0);
      } else {
        StepRowIsTruthful(db, key, Advance(t, PastMaterialisation), 0);
      }
    }
  }

  lemma EndpointsAreTruthful(db: Db, endpoints: Endpoints)
    requires Truthful(db)
    requires forall k | k in db.deliveries && k.1 in db.endpoints ::
               k.1 in endpoints && endpoints[k.1].merchantId == db.endpoints[k.1].merchantId
    ensures Truthful(db.(endpoints := endpoints))
  {
    forall k | k in db.deliveries ensures DeliveryTrue(k, db.deliveries[k], db.outbox, endpoints) {
      assert DeliveryTrue(k, db.deliveries[k], db.outbox, db.endpoints);
    }
  }

  /** An endpoint keeps its merchant ... */
  lemma SetEndpointIsTruthful(db: Db, e: EndpointId, m: MerchantId, isActive: bool)
    requires Truthful(db)
    ensures Truthful(Commit(db, EndpointTxn(db, e, m, isActive)))
  {
    if EndpointTxn(db, e, m, isActive).Ok? {
      EndpointsAreTruthful(db, db.endpoints[e := Endpoint(m, isActive)]);
    }
  }

  /** ... and stays as long as there are deliveries to it. */
  lemma RemoveEndpointIsTruthful(db: Db, e: EndpointId)
    requires Truthful(db)
    ensures Truthful(Commit(db, RemoveEndpointTxn(db, e)))
  {
    if e in db.endpoints {
      if HasDelivery(db, e) {
        EndpointsAreTruthful(db, db.endpoints[e := db.endpoints[e].(isActive := false)]);
      } else {
        EndpointsAreTruthful(db, db.endpoints - {e});
      }
    }
  }

  lemma SendTestIsTruthful(db: Db, e: EndpointId, sentAt: int)
    requires Truthful(db)
    ensures Truthful(Commit(db, SendTestTxn(db, e, sentAt)))
  {
    if SendTestTxn(db, e, sentAt).Ok? {
      var d := SendTestTxn(db, e, sentAt).value;
      EventsStayTrue(db.outbox, d.outbox, db.payments, d.payments);
      DeliveriesStayTrue(db.outbox, d.outbox, db.deliveries, db.endpoints);
      forall k | k in d.deliveries ensures DeliveryTrue(k, d.deliveries[k], d.outbox, d.endpoints) {
        if k in db.deliveries && k != (WebhookTest(e, sentAt), e) {
          assert DeliveryTrue(k, db.deliveries[k], d.outbox, db.endpoints);
        }
      }
    }
  }

  // ---------- The steps ----------

  lemma WorkerSettlementsAreTruthful(db: Db, id: PaymentId, returnCode: string)
    requires Truthful(db) && Mirrored(db)
    ensures Truthful(Commit(db, Worker.Settle(db, id))) && Truthful(Commit(db, Worker.Return(db, id, returnCode)))
  {
    WorkerSettleIs(db, id);
    SettlementIsTruthful(db, id);
    WorkerReturnIs(db, id, returnCode);
    ReturnIsTruthful(db, id, returnCode);
  }

  lemma EngineSettlementsAreTruthful(db: Db, id: PaymentId, returnCode: string)
    requires Truthful(db) && Mirrored(db)
    ensures Truthful(Commit(db, Engine.Settle(db, id))) && Truthful(Commit(db, Engine.Return(db, id, returnCode)))
  {
    EngineSettleIs(db, id);
    SettlementIsTruthful(db, id);
    EngineReturnIs(db, id, returnCode);
    ReturnIsTruthful(db, id, returnCode);
  }

  lemma BankStepIsTruthful(db: Db, step: Step)
    requires Truthful(db) && Mirrored(db) && IsBankStep(step)
    ensures Truthful(Commit(db, BankTxn(db, step)))
  {
    match step
    case WorkerSettle(id) => WorkerSettlementsAreTruthful(db, id, "");
    case WorkerReturn(id, code) => WorkerSettlementsAreTruthful(db, id, code);
    case WorkerRelease(id) => ReleaseIsTruthful(db, id);
  }

  lemma ApiSettlementStepIsTruthful(db: Db, step: Step)
    requires Truthful(db) && Mirrored(db) && IsApiSettlementStep(step)
    ensures Truthful(Commit(db, ApiSettlementTxn(db, step)))
  {
    match step
    case ApiSettle(id) => EngineSettlementsAreTruthful(db, id, "");
    case ApiReturn(id, code) => EngineSettlementsAreTruthful(db, id, code);
  }

  lemma PaymentStepIsTruthful(db: Db, step: Step)
    requires Truthful(db) && Mirrored(db) && PapersOk(db) && IsPaymentStep(step)
    ensures Truthful(Commit(db, PaymentTxn(db, step)))
  {
    match step
    case CreatePayment(request, clientKey, caller, id, now) => CreateIsTruthful(db, request, clientKey, caller, id, now);
    case ApiValidate(id) => EngineValidateIsTruthful(db, id);
    case ApiReserve(id) => EngineReserveIsTruthful(db, id);
    case GenerateFile(day) => GenerateIsTruthful(db, day);
  }

  lemma HandlerStepIsTruthful(db: Db, step: Step)
    requires Truthful(db) && Mirrored(db) && PapersOk(db) && IsHandlerStep(step)
    ensures Truthful(Commit(db, HandlerTxn(db, step)))
  {
    match step
    case ValidateReceived(key, t, seen) => ValidateIsTruthful(db, key, t, seen);
    case MaterialiseWebhooks(key, t) => MaterialiseIsTruthful(db, key, t);
  }

  // Merchants, accounts and funding announce nothing.

  lemma OnboardIsTruthful(db: Db, m: MerchantId, profile: Profile)
    requires Truthful(db)
    ensures Truthful(Commit(db, OnboardTxn(db, m, profile)))
  {
    SilenceIsTruthful(db, Commit(db, OnboardTxn(db, m, profile)));
  }

  lemma MerchantStatusIsTruthful(db: Db, m: MerchantId, status: MerchantStatus)
    requires Truthful(db)
    ensures Truthful(Commit(db, MerchantStatusTxn(db, m, status)))
  {
    SilenceIsTruthful(db, Commit(db, MerchantStatusTxn(db, m, status)));
  }

  ghost predicate OnlyFunds(db: Db, d: Db) {
    d == db.(accounts := d.accounts, ledger := d.ledger)
  }

  lemma ProvisionKnownAccount(db: Db, a: AccountId, amount: int)
    requires a in db.accounts
    ensures OnlyFunds(db, Commit(db, ProvisionTxn(db, a, amount)))
  {
  }

  lemma ProvisionNewAccount(db: Db, a: AccountId, amount: int)
    requires a !in db.accounts
    ensures OnlyFunds(db, Commit(db, ProvisionTxn(db, a, amount)))
  {
  }

  lemma ProvisionOnlyFunds(db: Db, a: AccountId, amount: int)
    ensures OnlyFunds(db, Commit(db, ProvisionTxn(db, a, amount)))
  {
    if a in db.accounts {
      ProvisionKnownAccount(db, a, amount);
    } else {
      ProvisionNewAccount(db, a, amount);
    }
  }

  lemma FundingIsTruthful(db: Db, accounts: map<AccountId, AccountStatus>, ledger: map<EntryKey, Entry>)
    requires Truthful(db)
    ensures Truthful(db.(accounts := accounts, ledger := ledger))
  {
    SilenceIsTruthful(db, db.(accounts := accounts, ledger := ledger));
  }

  lemma ProvisionIsTruthful(db: Db, a: AccountId, amount: int)
    requires Truthful(db)
    ensures Truthful(Commit(db, ProvisionTxn(db, a, amount)))
  {
    var d := Commit(db, ProvisionTxn(db, a, amount));
    ProvisionOnlyFunds(db, a, amount);
    FundingIsTruthful(db, d.accounts, d.ledger);
  }

  lemma SetAccountIsTruthful(db: Db, a: AccountId, status: AccountStatus)
    requires Truthful(db)
    ensures Truthful(db.(accounts := db.accounts[a := status]))
  {
    SilenceIsTruthful(db, db.(accounts := db.accounts[a := status]));
  }

  lemma SettingStepIsTruthful(db: Db, step: Step)
    requires Truthful(db) && IsSettingStep(step)
    ensures Truthful(Commit(db, SettingTxn(db, step)))
  {
    match step
    case Onboard(m, profile) => OnboardIsTruthful(db, m, profile);
    case SetMerchantStatus(m, status) => MerchantStatusIsTruthful(db, m, status);
    case SetAccount(a, status) => SetAccountIsTruthful(db, a, status);
    case ProvisionFunding(a, amount) => ProvisionIsTruthful(db, a, amount);
    case SetEndpoint(e, m, isActive) => SetEndpointIsTruthful(db, e, m, isActive);
    case RemoveEndpoint(e) => RemoveEndpointIsTruthful(db, e);
    case SendWebhookTest(e, sentAt) => SendTestIsTruthful(db, e, sentAt);
  }

  lemma ClaimStepIsTruthful(db: Db, key: EventKey, step: RowStep, maxAttempts: nat)
    requires Truthful(db)
    ensures Truthful(Commit(db, RowTxn(db, key, step, maxAttempts)))
  {
    if key in db.outbox {
      StepRowIsTruthful(db, key, step, maxAttempts);
    }
  }

  lemma StepIsTruthful(db: Db, step: Step, maxAttempts: nat)
    requires Truthful(db) && Mirrored(db) && PapersOk(db)
    ensures Truthful(Next(db, step, maxAttempts))
  {
    if IsPaymentStep(step) {
      PaymentStepIsTruthful(db, step);
    } else if IsApiSettlementStep(step) {
      ApiSettlementStepIsTruthful(db, step);
    } else if IsBankStep(step) {
      BankStepIsTruthful(db, step);
    } else if IsHandlerStep(step) {
      HandlerStepIsTruthful(db, step);
    } else if IsClaimStep(step) {
      ClaimStepIsTruthful(db, step.key, ClaimStep(step), maxAttempts);
    } else {
      SettingStepIsTruthful(db, step);
    }
  }

  lemma {:induction false} EveryRunIsTruthful(steps: seq<Step>, maxAttempts: nat)
    requires maxAttempts >= 1
    ensures Truthful(System.Run(EMPTY, steps, maxAttempts))
    decreases |steps|
  {
    if steps != [] {
      var before := System.Run(EMPTY, steps[..|steps| - 1], maxAttempts);
      EveryRunIsTruthful(steps[..|steps| - 1], maxAttempts);
      EveryRunKeepsInv(steps[..|steps| - 1], maxAttempts);
      StepIsTruthful(before, steps[|steps| - 1], maxAttempts);
    }
  }

  /** Every delivery carries the payload of its event, goes to an endpoint of the payment's own merchant, and
      tells that payment's amount and direction and the status the event is about. */
  lemma DeliveriesTellTheTruth(db: Db, key: EventKey, e: EndpointId, maxAttempts: nat)
    requires Reachable(db, maxAttempts) && maxAttempts >= 1 && (key, e) in db.deliveries
    ensures key in db.outbox && db.deliveries[(key, e)] == db.outbox[key].payload && e in db.endpoints
    ensures key.Lifecycle? ==>
              && db.outbox[key].covered.Some? && key.id in db.payments
              && db.endpoints[e].merchantId == db.payments[key.id].details.merchantId
              && EventTrue(key, db.deliveries[(key, e)], db.payments)
  {
    var steps :| db == System.Run(EMPTY, steps, maxAttempts);
    EveryRunIsTruthful(steps, maxAttempts);
    assert DeliveryTrue((key, e), db.deliveries[(key, e)], db.outbox, db.endpoints);
    assert EventTrue(key, db.outbox[key].payload, db.payments);
  }

  // ---------- The bank's code ----------

  /** What a return leaves: on the reservation of a credit, as the failure code of a debit, and in its event. */
  predicate TellsReturn(d: Db, id: PaymentId, held: bool, returnCode: string) {
    var key := Lifecycle(id, PaymentReturned);
    && id in d.payments && d.payments[id].status.Returned?
    && (if held then id in d.holds && d.holds[id].returnCode == Some(returnCode)
        else d.payments[id].failureCode == Some(returnCode))
    && key in d.outbox && d.outbox[key].payload.LifecyclePayload?
    && d.outbox[key].payload.returnCode == Some(returnCode)
  }

  lemma CreditReturnTells(db: Db, id: PaymentId, returnCode: string)
    requires id in db.payments && id in db.holds
    ensures TellsReturn(CreditReturned(db, id, returnCode), id, true, returnCode)
  {
  }

  lemma DebitReturnTells(db: Db, id: PaymentId, returnCode: string)
    requires id in db.payments
    ensures TellsReturn(DebitReturned(db, id, returnCode), id, false, returnCode)
  {
  }

  lemma ReturnEffectTells(db: Db, id: PaymentId, returnCode: string)
    requires ReturnEffect(db, id, returnCode).Ok? && ReturnEffect(db, id, returnCode).value != db
    ensures TellsReturn(ReturnEffect(db, id, returnCode).value, id, id in db.holds, returnCode)
  {
    if id in db.holds {
      CreditReturnTells(db, id, returnCode);
    } else {
      DebitReturnTells(db, id, returnCode);
    }
  }

  lemma PayloadStays(d: Db, steps: seq<Step>, key: EventKey, maxAttempts: nat)
    requires Inv(d, maxAttempts) && maxAttempts >= 1 && key in d.outbox
    ensures var later := System.Run(d, steps, maxAttempts);
            key in later.outbox && later.outbox[key].payload == d.outbox[key].payload
  {
    RunIsLater(d, steps, maxAttempts);
    assert RowPersists(d.outbox[key], System.Run(d, steps, maxAttempts).outbox[key]);
  }

  lemma CommittedReturnTells(db: Db, id: PaymentId, returnCode: string)
    ensures var d := Commit(db, ReturnEffect(db, id, returnCode));
            d != db ==> TellsReturn(d, id, id in db.holds, returnCode)
  {
    var r := ReturnEffect(db, id, returnCode);
    if r.Ok? && r.value != db {
      ReturnEffectTells(db, id, returnCode);
    }
  }

  lemma ReturnStepIs(db: Db, id: PaymentId, returnCode: string, maxAttempts: nat)
    requires Mirrored(db)
    ensures Next(db, ApiReturn(id, returnCode), maxAttempts) == Commit(db, ReturnEffect(db, id, returnCode))
    ensures Next(db, WorkerReturn(id, returnCode), maxAttempts) == Commit(db, ReturnEffect(db, id, returnCode))
  {
    EngineReturnIs(db, id, returnCode);
    WorkerReturnIs(db, id, returnCode);
  }

  /** A return carries the bank's own code, and the event that announces it does so at every later time. */
  lemma ReturnTellsTheCode(db: Db, id: PaymentId, returnCode: string, steps: seq<Step>, maxAttempts: nat)
    requires Reachable(db, maxAttempts) && maxAttempts >= 1
    ensures var d := Next(db, ApiReturn(id, returnCode), maxAttempts);
            && d == Next(db, WorkerReturn(id, returnCode), maxAttempts)
            && (d != db ==>
                  && TellsReturn(d, id, id in db.holds, returnCode)
                  && var later, key := System.Run(d, steps, maxAttempts), Lifecycle(id, PaymentReturned);
                     key in later.outbox && later.outbox[key].payload == d.outbox[key].payload)
  {
    var run :| db == System.Run(EMPTY, run, maxAttempts);
    EveryRunKeepsInv(run, maxAttempts);
    ReturnStepIs(db, id, returnCode, maxAttempts);
    CommittedReturnTells(db, id, returnCode);
    StepKeepsInv(db, ApiReturn(id, returnCode), maxAttempts);
    var d := Next(db, ApiReturn(id, returnCode), maxAttempts);
    if d != db {
      PayloadStays(d, steps, Lifecycle(id, PaymentReturned), maxAttempts);
    }
  }

  // ---------- Endpoints ----------

  ghost predicate OthersSame(endpoints: Endpoints, later: Endpoints, e: EndpointId) {
    later - {e} == endpoints - {e}
  }

  /** An endpoint is switched on and off by its own merchant only ... */
  lemma EndpointsFollowTheirMerchant(db: Db, e: EndpointId, m: MerchantId, isActive: bool)
    ensures var d := Commit(db, EndpointTxn(db, e, m, isActive));
            && OthersSame(db.endpoints, d.endpoints, e)
            && if e in db.endpoints && db.endpoints[e].merchantId != m then d == db
               else e in d.endpoints && d.endpoints[e].merchantId == m && d.endpoints[e].isActive == isActive
  {
  }

  function DeliveriesTo(deliveries: Deliveries, e: EndpointId): set<(EventKey, EndpointId)> {
    set k | k in deliveries && k.1 == e
  }

  lemma DeliveredHas(db: Db, e: EndpointId)
    ensures HasDelivery(db, e) <==> DeliveriesTo(db.deliveries, e) != {}
  {
    if HasDelivery(db, e) {
      var k :| k in db.deliveries && k.1 == e;
      assert k in DeliveriesTo(db.deliveries, e);
    }
  }

  /** ... removing one that has deliveries only switches it off ... */
  lemma UsedIsSwitchedOff(db: Db, e: EndpointId)
    requires e in db.endpoints && DeliveriesTo(db.deliveries, e) != {}
    ensures var off := Endpoint(db.endpoints[e].merchantId, false);
            RemoveEndpointTxn(db, e) == Ok(db.(endpoints := db.endpoints[e := off]))
  {
    DeliveredHas(db, e);
  }

  /** ... and one without any is removed. */
  lemma UnusedIsRemoved(db: Db, e: EndpointId)
    requires e in db.endpoints && DeliveriesTo(db.deliveries, e) == {}
    ensures RemoveEndpointTxn(db, e) == Ok(db.(endpoints := db.endpoints - {e}))
  {
    DeliveredHas(db, e);
  }
}
