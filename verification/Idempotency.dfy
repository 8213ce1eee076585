/** Concurrent create requests: every call is a transaction and, when that met an existing key, a
    later read; between the two anything else may happen. */
module Idempotency {
  import opened Text
  import opened Store
  import opened Creation
  import opened Records
  import opened Invariants
  import Effects
  import Safety
  import History
  import Sys = System

  datatype Call = Call(request: Request, clientKey: string, caller: MerchantId) {
    /** The unique key of the idempotency record. */
    function Slot(): (MerchantId, string) {
      (caller, Trim(clientKey))
    }

    function Fingerprint(): Details {
      Canonical(request, caller)
    }
  }

  datatype Reply =
    | Created(id: PaymentId)     // the call's own transaction created the payment
    | Replayed(id: PaymentId)    // the payment of an earlier call
    | Conflict                   // the key was used with another request
    | Rejected(error: Error)     // a bad request or an unknown merchant
    | Internal                   // 'Payment could not be read after a concurrent idempotency conflict.'

  datatype Progress = Waiting | Answered(reply: Reply)
  datatype Client = Client(call: Call, progress: Progress)
  datatype Api = Api(db: Db, clients: map<nat, Client>)

  datatype ApiStep =
    | Attempt(n: nat, call: Call, id: PaymentId, now: int)   // `createWithOutboxAndIdempotency`
    | Read(n: nat)                                           // `handleIdempotencyConflict`
    | Other(step: Sys.Step)

  function AfterAttempt(r: Result<Db>, id: PaymentId): Progress {
    match r
    case Ok(_) => Answered(Created(id))
    case Err(UniqueViolation) => Waiting
    case Err(e) => Answered(Rejected(e))
  }

  function AfterRead(db: Db, call: Call): Reply {
    if call.Slot() !in db.idempotency then Internal
    else if db.idempotency[call.Slot()].fingerprint != call.Fingerprint() then Conflict
    else Replayed(db.idempotency[call.Slot()].paymentId)
  }

  function AfterReading(clients: map<nat, Client>, n: nat, db: Db): map<nat, Client>
    requires n in clients
  {
    clients[n := clients[n].(progress := Answered(AfterRead(db, clients[n].call)))]
  }

  function CreateFor(db: Db, call: Call, id: PaymentId, now: int): Result<Db> {
    Create(db, call.request, call.clientKey, call.caller, id, now)
  }

  /** Payment ids are new UUIDs. */
  ghost predicate Enabled(s: Api, step: ApiStep) {
    match step
    case Attempt(n, call, id, now) => n !in s.clients && id !in s.db.payments
    case Read(n) => n in s.clients && s.clients[n].progress.Waiting?
    case Other(_) => true
  }

  ghost function ApiNext(s: Api, step: ApiStep, maxAttempts: nat): Api
    requires Enabled(s, step)
  {
    match step
    case Attempt(n, call, id, now) =>
      var r := CreateFor(s.db, call, id, now);
      Api(Commit(s.db, r), s.clients[n := Client(call, AfterAttempt(r, id))])
    case Read(n) =>
      s.(clients := AfterReading(s.clients, n, s.db))
    case Other(step) => s.(db := Sys.Next(s.db, step, maxAttempts))
  }

  ghost function ApiRun(s: Api, steps: seq<ApiStep>, maxAttempts: nat): Api
    decreases |steps|
  {
    if steps == [] then s
    else
      var before := ApiRun(s, steps[..|steps| - 1], maxAttempts);
      if Enabled(before, steps[|steps| - 1]) then ApiNext(before, steps[|steps| - 1], maxAttempts) else before
  }

  // ---------- The invariant ----------

  type Table = map<(MerchantId, string), IdempotencyRecord>

  /** What a client's progress says about the record of its key. */
  ghost predicate ClientOk(c: Client, table: Table) {
    match c.progress
    case Waiting => c.call.Slot() in table
    case Answered(Created(id)) =>
      c.call.Slot() in table && table[c.call.Slot()] == IdempotencyRecord(id, c.call.Fingerprint())
    case Answered(Replayed(id)) =>
      c.call.Slot() in table && table[c.call.Slot()] == IdempotencyRecord(id, c.call.Fingerprint())
    case Answered(Conflict) =>
      c.call.Slot() in table && table[c.call.Slot()].fingerprint != c.call.Fingerprint()
    case Answered(Rejected(_)) => true
    case Answered(Internal) => false
  }

  ghost predicate ClientsOk(clients: map<nat, Client>, table: Table) {
    forall n | n in clients :: ClientOk(clients[n], table)
  }

  predicate IsCreated(c: Client) {
    c.progress.Answered? && c.progress.reply.Created?
  }

  /** At most one call creates the payment of a key. */
  ghost predicate OneCreates(clients: map<nat, Client>) {
    forall n, k | n in clients && k in clients && n != k && IsCreated(clients[n]) && IsCreated(clients[k]) ::
      clients[n].call.Slot() != clients[k].call.Slot()
  }

  ghost predicate ApiInv(s: Api, maxAttempts: nat) {
    Inv(s.db, maxAttempts) && ClientsOk(s.clients, s.db.idempotency) && OneCreates(s.clients)
  }

  lemma RecordsStay(clients: map<nat, Client>, table: Table, later: Table)
    requires ClientsOk(clients, table) && History.Keeps(table, later)
    ensures ClientsOk(clients, later)
  {
    forall n | n in clients ensures ClientOk(clients[n], later) {
      assert ClientOk(clients[n], table);
    }
  }

  /** When the key is taken there is a record under it, because stored keys determine their parts. */
  lemma TakenKeysHaveRecords(db: Db, m: MerchantId, key: string)
    requires PapersOk(db) && m in db.merchants && KeyTaken(db.payments, StoredKey(m, key))
    ensures (m, key) in db.idempotency
  {
    var id :| id in db.payments && db.payments[id].idempotencyKey == StoredKey(m, key);
    RecordNamesPayment(db, m, key, id);
  }

  // ---------- Its preservation ----------

  lemma WinnerRecords(db: Db, call: Call, id: PaymentId, now: int)
    requires Effects.Mirrored(db) && PapersOk(db) && CreateFor(db, call, id, now).Ok?
    ensures call.Slot() !in db.idempotency
    ensures CreateFor(db, call, id, now).value.idempotency
         == db.idempotency[call.Slot() := IdempotencyRecord(id, call.Fingerprint())]
  {
    Safety.InsertIs(db, call.Fingerprint(), call.Slot().1, id, now);
  }

  lemma LoserFindsRecord(db: Db, call: Call, id: PaymentId, now: int)
    requires Effects.Mirrored(db) && PapersOk(db) && id !in db.payments
    requires CreateFor(db, call, id, now) == Err(UniqueViolation)
    ensures call.Slot() in db.idempotency
  {
    Safety.InsertIs(db, call.Fingerprint(), call.Slot().1, id, now);
    TakenKeysHaveRecords(db, call.caller, call.Slot().1);
  }

  lemma OneMoreClient(clients: map<nat, Client>, n: nat, c: Client, table: Table, later: Table)
    requires ClientsOk(clients, table) && History.Keeps(table, later) && ClientOk(c, later)
    ensures ClientsOk(clients[n := c], later)
  {
    RecordsStay(clients, table, later);
  }

  lemma AttemptKeepsClients(s: Api, n: nat, call: Call, id: PaymentId, now: int)
    requires Effects.Mirrored(s.db) && PapersOk(s.db) && ClientsOk(s.clients, s.db.idempotency)
    requires n !in s.clients && id !in s.db.payments
    ensures var r := CreateFor(s.db, call, id, now);
            ClientsOk(s.clients[n := Client(call, AfterAttempt(r, id))], Commit(s.db, r).idempotency)
  {
    var r := CreateFor(s.db, call, id, now);
    if r.Ok? {
      WinnerRecords(s.db, call, id, now);
    } else if r == Err(UniqueViolation) {
      LoserFindsRecord(s.db, call, id, now);
    }
    OneMoreClient(s.clients, n, Client(call, AfterAttempt(r, id)), s.db.idempotency, Commit(s.db, r).idempotency);
  }

  lemma AttemptKeepsWinner(s: Api, n: nat, call: Call, id: PaymentId, now: int)
    requires Effects.Mirrored(s.db) && PapersOk(s.db) && ClientsOk(s.clients, s.db.idempotency) && OneCreates(s.clients)
    requires n !in s.clients
    ensures OneCreates(s.clients[n := Client(call, AfterAttempt(CreateFor(s.db, call, id, now), id))])
  {
    if CreateFor(s.db, call, id, now).Ok? {
      WinnerRecords(s.db, call, id, now);
      forall k | k in s.clients && IsCreated(s.clients[k]) ensures s.clients[k].call.Slot() != call.Slot() {
        assert ClientOk(s.clients[k], s.db.idempotency);
      }
    }
  }

  lemma AttemptKeepsInv(s: Api, n: nat, call: Call, id: PaymentId, now: int, maxAttempts: nat)
    requires ApiInv(s, maxAttempts) && maxAttempts >= 1 && n !in s.clients && id !in s.db.payments
    ensures var r := CreateFor(s.db, call, id, now);
            ApiInv(Api(Commit(s.db, r), s.clients[n := Client(call, AfterAttempt(r, id))]), maxAttempts)
  {
    Safety.CreateKeepsInv(s.db, call.request, call.clientKey, call.caller, id, now, maxAttempts);
    AttemptKeepsClients(s, n, call, id, now);
    AttemptKeepsWinner(s, n, call, id, now);
  }

  lemma ReadKeepsClients(clients: map<nat, Client>, n: nat, db: Db)
    requires ClientsOk(clients, db.idempotency) && OneCreates(clients)
    requires n in clients && clients[n].progress.Waiting?
    ensures ClientsOk(AfterReading(clients, n, db), db.idempotency) && OneCreates(AfterReading(clients, n, db))
  {
    assert ClientOk(clients[n], db.idempotency);
  }

  lemma ReadKeepsInv(s: Api, n: nat, maxAttempts: nat)
    requires ApiInv(s, maxAttempts) && n in s.clients && s.clients[n].progress.Waiting?
    ensures ApiInv(s.(clients := AfterReading(s.clients, n, s.db)), maxAttempts)
  {
    ReadKeepsClients(s.clients, n, s.db);
  }

  lemma OtherKeepsInv(s: Api, step: Sys.Step, maxAttempts: nat)
    requires ApiInv(s, maxAttempts) && maxAttempts >= 1
    ensures ApiInv(s.(db := Sys.Next(s.db, step, maxAttempts)), maxAttempts)
  {
    Safety.StepKeepsInv(s.db, step, maxAttempts);
    History.StepIsLater(s.db, step, maxAttempts);
    RecordsStay(s.clients, s.db.idempotency, Sys.Next(s.db, step, maxAttempts).idempotency);
  }

  lemma {:induction false} EveryApiRunKeepsInv(steps: seq<ApiStep>, maxAttempts: nat)
    requires maxAttempts >= 1
    ensures ApiInv(ApiRun(Api(EMPTY, map[]), steps, maxAttempts), maxAttempts)
    decreases |steps|
  {
    if steps == [] {
      Safety.EmptyDatabaseIsFine(maxAttempts);
    } else {
      var before := ApiRun(Api(EMPTY, map[]), steps[..|steps| - 1], maxAttempts);
      EveryApiRunKeepsInv(steps[..|steps| - 1], maxAttempts);
      if Enabled(before, steps[|steps| - 1]) {
        ApiStepKeepsInv(before, steps[|steps| - 1], maxAttempts);
      }
    }
  }

  lemma ApiStepKeepsInv(s: Api, step: ApiStep, maxAttempts: nat)
    requires ApiInv(s, maxAttempts) && maxAttempts >= 1 && Enabled(s, step)
    ensures ApiInv(ApiNext(s, step, maxAttempts), maxAttempts)
  {
    match step
    case Attempt(n, call, id, now) => AttemptKeepsInv(s, n, call, id, now, maxAttempts);
    case Read(n) => ReadKeepsInv(s, n, maxAttempts);
    case Other(other) => OtherKeepsInv(s, other, maxAttempts);
  }

  // ---------- The results ----------

  ghost predicate ApiReachable(s: Api, maxAttempts: nat) {
    exists steps :: s == ApiRun(Api(EMPTY, map[]), steps, maxAttempts)
  }

  lemma ApiReachableIsSafe(s: Api, maxAttempts: nat)
    requires ApiReachable(s, maxAttempts) && maxAttempts >= 1
    ensures ApiInv(s, maxAttempts)
  {
    var steps :| s == ApiRun(Api(EMPTY, map[]), steps, maxAttempts);
    EveryApiRunKeepsInv(steps, maxAttempts);
  }

  /** The payment a successful reply names. */
  function PaymentOf(reply: Reply): Option<PaymentId> {
    match reply
    case Created(id) => Some(id)
    case Replayed(id) => Some(id)
    case _ => None
  }

  ghost predicate Got(s: Api, n: nat, reply: Reply) {
    n in s.clients && s.clients[n].progress == Answered(reply)
  }

  /** Nobody is ever told that the payment could not be read. */
  lemma InternalErrorIsUnreachable(s: Api, n: nat, maxAttempts: nat)
    requires ApiReachable(s, maxAttempts) && maxAttempts >= 1
    ensures !Got(s, n, Internal)
  {
    ApiReachableIsSafe(s, maxAttempts);
    if n in s.clients {
      assert ClientOk(s.clients[n], s.db.idempotency);
    }
  }

  /** All successful replies for one merchant and trimmed key name the same payment and answer the same
      request, field by field; at most one of them created it. A request that differs in some field is told of a
      conflict, and only such a request. */
  lemma RepliesAgree(s: Api, n: nat, k: nat, maxAttempts: nat)
    requires ApiReachable(s, maxAttempts) && maxAttempts >= 1
    requires n in s.clients && k in s.clients && n != k && s.clients[n].call.Slot() == s.clients[k].call.Slot()
    requires s.clients[n].progress.Answered? && s.clients[k].progress.Answered?
    requires !s.clients[n].progress.reply.Rejected? && !s.clients[k].progress.reply.Rejected?
    requires !s.clients[n].progress.reply.Conflict?
    ensures var r, r' := s.clients[n].progress.reply, s.clients[k].progress.reply;
            && PaymentOf(r).Some?
            && (SameRequest(s.clients[k].call.request, s.clients[n].call.request) <==> PaymentOf(r') == PaymentOf(r))
            && (!SameRequest(s.clients[k].call.request, s.clients[n].call.request) <==> r'.Conflict?)
            && !(r.Created? && r'.Created?)
  {
    ApiReachableIsSafe(s, maxAttempts);
    assert ClientOk(s.clients[n], s.db.idempotency) && ClientOk(s.clients[k], s.db.idempotency);
    FingerprintsCompareRequests(s.clients[k].call.request, s.clients[n].call.request, s.clients[n].call.caller);
  }

  /** Whenever a call has succeeded, the payment that its reply names holds the fields of its request. */
  lemma RepliesNameTheRequest(s: Api, n: nat, id: PaymentId, maxAttempts: nat)
    requires ApiReachable(s, maxAttempts) && maxAttempts >= 1 && (Got(s, n, Created(id)) || Got(s, n, Replayed(id)))
    ensures id in s.db.payments
    ensures StoresFields(s.db.payments[id].details, s.clients[n].call.request, s.clients[n].call.caller)
  {
    var call := s.clients[n].call;
    ApiReachableIsSafe(s, maxAttempts);
    assert ClientOk(s.clients[n], s.db.idempotency);
    assert RecordOk(call.Slot(), s.db.idempotency[call.Slot()], s.db.payments);
    CanonicalStoresFields(call.request, call.caller);
  }

  /** A key has at most one payment and one record, and its payment exactly one PAYMENT_RECEIVED event. */
  lemma OnePaymentPerKey(s: Api, m: MerchantId, key: string, id: PaymentId, id': PaymentId, maxAttempts: nat)
    requires ApiReachable(s, maxAttempts) && maxAttempts >= 1 && m in s.db.merchants
    requires id in s.db.payments && s.db.payments[id].idempotencyKey == StoredKey(m, key)
    requires id' in s.db.payments && s.db.payments[id'].idempotencyKey == StoredKey(m, key)
    ensures id == id'
    ensures (m, key) in s.db.idempotency
    ensures s.db.idempotency[(m, key)] == IdempotencyRecord(id, s.db.payments[id].details)
    ensures Lifecycle(id, PaymentReceived) in s.db.outbox
  {
    ApiReachableIsSafe(s, maxAttempts);
    RecordNamesPayment(s.db, m, key, id);
    RecordNamesPayment(s.db, m, key, id');
    Effects.SliceOf(s.db, id);
  }

  lemma RecordNamesPayment(db: Db, m: MerchantId, key: string, id: PaymentId)
    requires PapersOk(db) && m in db.merchants && id in db.payments
    requires db.payments[id].idempotencyKey == StoredKey(m, key)
    ensures (m, key) in db.idempotency && db.idempotency[(m, key)] == IdempotencyRecord(id, db.payments[id].details)
  {
    assert HasRecord(id, db.payments, db.idempotency);
    var slot :| slot in db.idempotency && db.idempotency[slot].paymentId == id
                && slot.0 == db.payments[id].details.merchantId
                && db.payments[id].idempotencyKey == StoredKey(slot.0, slot.1);
    StoredKeyIsInjective(m, key, slot.0, slot.1);
    assert RecordOk(slot, db.idempotency[slot], db.payments);
  }
}
