/** The worker that handles claimed events, and why all it does is a run of the system. */
module OutboxWorker {
  import opened Store
  import opened OutboxProtocol
  import opened Database
  import opened OutboxRepository
  import opened LifecycleRepository
  import Records
  import Sys = System
  import Worker = WorkerLifecycle
  import Funding

  // ---------- Which rows a transaction touches ----------

  /** Rows are only added, and added rows are new events. */
  ghost predicate OnlyAdds(rows: Rows, later: Rows) {
    && (forall k | k in rows :: k in later && later[k] == rows[k])
    && (forall k | k in later :: k in rows || later[k].claim == FRESH)
  }

  /** Only the row of this event may change, and it is not claimed by the change. */
  ghost predicate Touches(rows: Rows, later: Rows, key: EventKey) {
    && (forall k | k in rows :: k in later && (k != key ==> later[k] == rows[k]))
    && (forall k | k in later :: k in rows || later[k].claim == FRESH)
    && (key in rows ==> later[key].claim.handlers == rows[key].claim.handlers
                        && later[key].claim.attempts == rows[key].claim.attempts
                        && (later[key].claim.status.Processing? ==> rows[key].claim.status.Processing?))
  }

  lemma EmitOnlyAdds(db: Db, id: PaymentId, t: EventType)
    requires id in db.payments
    ensures var r := EmitEvent(db, id, t); r.Ok? ==> OnlyAdds(db.outbox, r.value.outbox)
  {
  }

  function Charged(db: Db, id: PaymentId, v: Worker.Verdict): (r: Result<Db>)
    requires id in db.payments
    ensures r.Ok? ==> r.value.outbox == db.outbox && r.value.payments == db.payments
  {
    var db1 :- if v.Pass? && db.payments[id].details.direction.Credit? then Worker.Reserve(db, id) else Ok(db);
    Ok(if v.Pass? then Funding.AddUsage(db1, id) else db1)
  }

  /** The state in which the lifecycle events of a decision are written. */
  function Decided(db: Db, id: PaymentId, v: Worker.Verdict): (r: Result<Db>)
    requires id in db.payments
    ensures r.Ok? ==> r.value.outbox == db.outbox && id in r.value.payments
  {
    var charged :- Charged(db, id, v);
    Ok(charged.(payments := charged.payments[id := Worker.TransitionData(db.payments[id], v)]))
  }

  /** The lifecycle events of a decision. */
  function Announced(d: Db, id: PaymentId, v: Worker.Verdict, credit: bool): Result<Db>
    requires id in d.payments
  {
    var e :- EmitEvent(d, id, if v.Pass? then PaymentValidated else PaymentValidationFailed);
    if v.Pass? && credit then EmitEvent(e, id, PaymentReserved) else Ok(e)
  }

  lemma AnnouncingOnlyAdds(d: Db, id: PaymentId, v: Worker.Verdict, credit: bool)
    requires id in d.payments
    ensures var r := Announced(d, id, v, credit); r.Ok? ==> OnlyAdds(d.outbox, r.value.outbox)
  {
    var t := if v.Pass? then PaymentValidated else PaymentValidationFailed;
    EmitOnlyAdds(d, id, t);
    if EmitEvent(d, id, t).Ok? {
      EmitOnlyAdds(EmitEvent(d, id, t).value, id, PaymentReserved);
    }
  }

  lemma RecordIs(db: Db, id: PaymentId, v: Worker.Verdict)
    requires id in db.payments
    ensures Worker.RecordDecision(db, id, v) ==
              match Decided(db, id, v)
              case Err(e) => Err(e)
              case Ok(d) => Announced(d, id, v, db.payments[id].details.direction.Credit?)
  {
  }

  lemma RecordOnlyAdds(db: Db, id: PaymentId, v: Worker.Verdict)
    requires id in db.payments
    ensures var r := Worker.RecordDecision(db, id, v); r.Ok? ==> OnlyAdds(db.outbox, r.value.outbox)
  {
    RecordIs(db, id, v);
    if Decided(db, id, v).Ok? {
      AnnouncingOnlyAdds(Decided(db, id, v).value, id, v, db.payments[id].details.direction.Credit?);
    }
  }

  lemma CompletionTouches(rows: Rows, db: Db, key: EventKey)
    requires OnlyAdds(rows, db.outbox)
    ensures var r := Worker.CompleteOutbox(db, key); r.Ok? ==> Touches(rows, r.value.outbox, key)
  {
  }

  lemma ReserveTouches(db: Db, id: PaymentId, key: EventKey)
    ensures var r := Worker.ReserveDailyUsageAndTransition(db, id, key); r.Ok? ==> Touches(db.outbox, r.value.outbox, key)
  {
    CompletionTouches(db.outbox, db, key);
    if id in db.payments && db.payments[id].status.Received? && db.payments[id].details.merchantId in db.merchants {
      var recorded := Worker.RecordDecision(db, id, Worker.Decide(db, id));
      RecordOnlyAdds(db, id, Worker.Decide(db, id));
      if recorded.Ok? {
        CompletionTouches(db.outbox, recorded.value, key);
      }
    }
  }

  lemma AddingTouches(rows: Rows, later: Rows, key: EventKey)
    requires OnlyAdds(rows, later)
    ensures Touches(rows, later, key)
  {
  }

  lemma TransitionTouches(db: Db, id: PaymentId, v: Worker.Verdict, key: EventKey)
    ensures var r := Worker.TransitionFromReceived(db, id, v); r.Ok? ==> Touches(db.outbox, r.value.outbox, key)
  {
    if id in db.payments && db.payments[id].status.Received? {
      var updated := db.(payments := db.payments[id := Worker.TransitionData(db.payments[id], v)]);
      var t := if v.Pass? then PaymentValidated else PaymentValidationFailed;
      EmitOnlyAdds(updated, id, t);
      if EmitEvent(updated, id, t).Ok? {
        AddingTouches(db.outbox, EmitEvent(updated, id, t).value.outbox, key);
      }
    }
  }

  // ---------- Services ----------

  /** The merchant's status as a validation reads it. */
  function StatusRead(db: Db, key: EventKey): MerchantStatus
    requires key.Lifecycle?
  {
    if key.id in db.payments && db.payments[key.id].details.merchantId in db.merchants
    then db.merchants[db.payments[key.id].details.merchantId].status else Active
  }

  class PaymentValidationService {
    const payments: PaymentLifecycleRepository

    constructor (payments: PaymentLifecycleRepository)
      ensures this.payments == payments
    {
      this.payments := payments;
    }

    /** `validate`: the outcome is written by one of the two repository transactions. */
    method Validate(key: EventKey) returns (r: Result<()>)
      requires key.Lifecycle?
      modifies payments.tables
      ensures var db := old(payments.tables.State());
              if key.id !in db.payments then r == Err(NotFound) && payments.tables.State() == db
              else
                var spec := Sys.ValidationOutcome(db, key, Sys.SeenVerdict(db, key.id, StatusRead(db, key)));
                r == Outcome(spec) && payments.tables.State() == Commit(db, spec)
    {
      var tables := payments.tables;
      if key.id !in tables.payments {
        return Err(NotFound);
      }
      var d := tables.payments[key.id].details;
      var merchant := None;
      if d.merchantId in tables.merchants {
        merchant := Some(tables.merchants[d.merchantId]);
      }
      var result := Worker.ValidatePayment(d, merchant);
      if result.Pass? {
        r := payments.ReserveDailyUsageAndTransition(key.id, key);
      } else {
        r := payments.TransitionFromReceived(key.id, result);
      }
    }
  }

  /** Inserts a row unless its key exists. */
  function With<K, V>(m: map<K, V>, k: K, v: V): map<K, V> {
    if k in m then m else m[k := v]
  }

  /** `createMany` with `skipDuplicates` reaches the endpoints one after the other. */
  lemma InsertingOne(db: Db, key: EventKey, active: set<EndpointId>, e: EndpointId)
    requires key in db.outbox && e !in active
    ensures db.deliveries + Sys.NewDeliveries(db, key, active + {e})
         == With(db.deliveries + Sys.NewDeliveries(db, key, active), (key, e), db.outbox[key].payload)
  {
    OneMoreDelivery(db, key, active, e);
    UpdateRight(db.deliveries, Sys.NewDeliveries(db, key, active), (key, e), db.outbox[key].payload);
  }

  lemma OneMoreDelivery(db: Db, key: EventKey, active: set<EndpointId>, e: EndpointId)
    requires key in db.outbox && e !in active
    ensures Sys.NewDeliveries(db, key, active + {e})
         == if (key, e) in db.deliveries then Sys.NewDeliveries(db, key, active)
            else Sys.NewDeliveries(db, key, active)[(key, e) := db.outbox[key].payload]
    ensures (key, e) in db.deliveries + Sys.NewDeliveries(db, key, active) <==> (key, e) in db.deliveries
  {
  }

  class WebhookDeliveryMaterializer {
    const tables: Tables

    constructor (tables: Tables)
      ensures this.tables == tables
    {
      this.tables := tables;
    }

    /** `materialize`: one delivery for every endpoint that is active now, duplicates skipped. */
    method Materialize(key: EventKey)
      requires key in tables.outbox
      modifies tables
      ensures tables.State() ==
                if key.WebhookTest? then old(tables.State())
                else Sys.Delivered(old(tables.State()), key,
                                   Sys.ActiveEndpoints(old(tables.State()), old(tables.outbox[key]).payload.merchantId))
    {
      if key.WebhookTest? {
        return;
      }
      ghost var db := tables.State();
      var payload := tables.outbox[key].payload;
      var active := set e | e in tables.endpoints && tables.endpoints[e] == Endpoint(payload.merchantId, true);
      var endpoints := Listing(active);
      assert Sys.NewDeliveries(db, key, SetOf(endpoints[..0])) == map[];
      for i := 0 to |endpoints|
        invariant tables.State() ==
                    db.(deliveries := db.deliveries + Sys.NewDeliveries(db, key, SetOf(endpoints[..i])))
      {
        NextListed(endpoints, i);
        InsertingOne(db, key, SetOf(endpoints[..i]), endpoints[i]);
        if (key, endpoints[i]) !in tables.deliveries {
          tables.deliveries := tables.deliveries[(key, endpoints[i]) := payload];
        }
      }
      assert SetOf(endpoints[..|endpoints|]) == active;
      tables.outbox := tables.outbox[key := tables.outbox[key].(covered := Some(active))];
    }
  }

  // ---------- Handling one event ----------

  predicate HasTicket(ticket: Ticket, rows: Rows, phase: Phase) {
    && ticket.key in rows
    && ticket.attempts in rows[ticket.key].claim.handlers
    && rows[ticket.key].claim.handlers[ticket.attempts] == phase
  }

  function Advanced(db: Db, ticket: Ticket, phase: Phase): Db
    requires ticket.key in db.outbox
  {
    StepRow(db, ticket.key, Advance(ticket.attempts, phase), 0)
  }

  /** The first stage: only PAYMENT_RECEIVED events are validated. */
  ghost function ValidatedFor(db: Db, ticket: Ticket): Result<Db> {
    if Records.IsReceived(ticket.key) then Sys.ValidateTxn(db, ticket.key, ticket.attempts, StatusRead(db, ticket.key))
    else Ok(db)
  }

  /** `handle`: validation before materialisation; a throw in the first skips the second. */
  ghost function Handled(db: Db, ticket: Ticket): Result<Db> {
    var validated :- ValidatedFor(db, ticket);
    Sys.MaterialiseTxn(validated, ticket.key, ticket.attempts)
  }

  /** A validation that has committed stays, whatever becomes of the materialisation. */
  ghost function HandledState(db: Db, ticket: Ticket): Db {
    var validated := ValidatedFor(db, ticket);
    if validated.Err? then db
    else Commit(validated.value, Sys.MaterialiseTxn(validated.value, ticket.key, ticket.attempts))
  }

  lemma ValidationKeepsTicket(db: Db, ticket: Ticket)
    requires HasTicket(ticket, db.outbox, AtStart) && Records.IsReceived(ticket.key) && ticket.key.id in db.payments
    ensures var outcome := Sys.ValidationOutcome(db, ticket.key, Sys.SeenVerdict(db, ticket.key.id, StatusRead(db, ticket.key)));
            outcome.Ok? ==>
              && Touches(db.outbox, outcome.value.outbox, ticket.key)
              && ValidatedFor(db, ticket) == Ok(Advanced(outcome.value, ticket, PastValidation))
    ensures var outcome := Sys.ValidationOutcome(db, ticket.key, Sys.SeenVerdict(db, ticket.key.id, StatusRead(db, ticket.key)));
            outcome.Err? ==> ValidatedFor(db, ticket) == Err(outcome.error)
  {
    ReserveTouches(db, ticket.key.id, ticket.key);
    TransitionTouches(db, ticket.key.id, Sys.SeenVerdict(db, ticket.key.id, StatusRead(db, ticket.key)), ticket.key);
  }

  class OutboxHandler {
    const validation: PaymentValidationService
    const materializer: WebhookDeliveryMaterializer

    constructor (validation: PaymentValidationService, materializer: WebhookDeliveryMaterializer)
      ensures this.validation == validation && this.materializer == materializer
    {
      this.validation, this.materializer := validation, materializer;
    }

    /** `handle`. */
    method Handle(ticket: Ticket) returns (r: Result<()>)
      requires validation.payments.tables == materializer.tables
      requires HasTicket(ticket, materializer.tables.outbox, AtStart)
      modifies materializer.tables
      ensures r == Outcome(Handled(old(materializer.tables.State()), ticket))
      ensures materializer.tables.State() ==
                HandledState(old(materializer.tables.State()), ticket)
    {
      r := Ok(());
      if Records.IsReceived(ticket.key) {
        r := Validate(ticket);
        if r.Err? {
          return;
        }
      }
      Materialise(ticket);
    }

    method Validate(ticket: Ticket) returns (r: Result<()>)
      requires validation.payments.tables == materializer.tables
      requires HasTicket(ticket, materializer.tables.outbox, AtStart) && Records.IsReceived(ticket.key)
      modifies materializer.tables
      ensures r == Outcome(ValidatedFor(old(materializer.tables.State()), ticket))
      ensures materializer.tables.State() == Commit(old(materializer.tables.State()),
                                                    ValidatedFor(old(materializer.tables.State()), ticket))
      ensures r.Ok? ==> HasTicket(ticket, materializer.tables.outbox, PastValidation)
    {
      var tables := materializer.tables;
      ghost var db := tables.State();
      r := validation.Validate(ticket.key);
      if ticket.key.id in db.payments {
        ValidationKeepsTicket(db, ticket);
      }
      if r.Ok? {
        MarkStage(ticket, PastValidation);
      }
    }

    method Materialise(ticket: Ticket)
      requires HasTicket(ticket, materializer.tables.outbox,
                         if Records.IsReceived(ticket.key) then PastValidation else AtStart)
      modifies materializer.tables
      ensures Ok(materializer.tables.State()) ==
                Sys.MaterialiseTxn(old(materializer.tables.State()), ticket.key, ticket.attempts)
    {
      materializer.Materialize(ticket.key);
      MarkStage(ticket, PastMaterialisation);
    }

    /** Bookkeeping: the ticket's handler has come this far. */
    method MarkStage(ticket: Ticket, phase: Phase)
      requires ticket.key in materializer.tables.outbox
      requires ticket.attempts in materializer.tables.outbox[ticket.key].claim.handlers
      modifies materializer.tables
      ensures materializer.tables.State() == Advanced(old(materializer.tables.State()), ticket, phase)
      ensures HasTicket(ticket, materializer.tables.outbox, phase)
    {
      var claim := materializer.tables.outbox[ticket.key].claim;
      materializer.tables.UpdateClaim(ticket.key, claim.(handlers := claim.handlers[ticket.attempts := phase]));
    }
  }
}
