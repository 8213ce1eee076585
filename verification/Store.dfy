/** The tables of the database as one value, and the row operations all transactions share. */
module Store {
  import opened OutboxProtocol

  type MerchantId = string
  type PaymentId = string
  type EndpointId = string

  datatype Option<+T> = None | Some(value: T)

  datatype Error =
    | NotFound
    | BadRequest             // a state or business check of the transaction failed
    | NotClaimed             // 'Outbox event is not claimed'
    | UniqueViolation        // an insert met an existing key

  datatype Result<+T> = Ok(value: T) | Err(error: Error) {
    predicate IsFailure() {
      Err?
    }
    function PropagateFailure<U>(): Result<U>
      requires Err?
    {
      Err(error)
    }
    function Extract(): T
      requires Ok?
    {
      value
    }
  }

  // ---------- Rows ----------

  datatype MerchantStatus = Active | Suspended | Closed

  /** Everything but the status is fixed when the merchant is created. */
  datatype Profile = Profile(merchantCode: string, legalName: string, allowAchDebit: bool, allowAchCredit: bool,
                             perPaymentLimit: nat, dailyAmountLimit: nat)
  datatype Merchant = Merchant(profile: Profile, status: MerchantStatus)

  /** A merchant has one funding account per currency, so the pair serves as its id. */
  datatype AccountId = AccountId(merchantId: MerchantId, currency: string)
  datatype AccountStatus = AccountActive | AccountClosed

  datatype Direction = Debit | Credit
  datatype PaymentStatus = Received | Validated | ValidationFailed | Submitted | Settled | Returned

  /** The canonical form of a create request; the payment row stores exactly these columns. */
  datatype Details = Details(merchantId: MerchantId, direction: Direction, amount: int, currency: string,
                             externalReference: Option<string>, description: Option<string>,
                             receiverName: string, receiverAccountRef: string, routingNumber: string)

  /** `file` stands for the pair achFileId, exportedAt, which are written together. */
  datatype Payment = Payment(details: Details, idempotencyKey: string, createdAt: int, status: PaymentStatus,
                             validationCode: Option<string>, failureCode: Option<string>, file: Option<nat>)

  datatype HoldStatus = HoldActive | HoldReleased | HoldSettled | HoldReturned
  /** A reservation row; `paymentId` is its unique key. */
  datatype Hold = Hold(account: AccountId, amount: int, status: HoldStatus, returnCode: Option<string>)

  datatype EntryType =
    | InitialCredit | ReservationEntry | ReservationRelease | Settlement | DebitPosted
    | CreditPosted | ReturnEntry | Reversal | Adjustment
  datatype Entry = Entry(account: AccountId, paymentId: Option<PaymentId>, entryType: EntryType, amount: int)

  /** The deterministic ledger keys; `EntryKeyText` in the module Keys prints them. */
  datatype EntryKey =
    | ReservationKey(id: PaymentId)
    | ReleaseKey(id: PaymentId)
    | SettlementKey(id: PaymentId)
    | ReturnKey(id: PaymentId)
    | DebitPostedKey(id: PaymentId)
    | DebitReturnKey(id: PaymentId)
    | DemoFundingKey(account: AccountId)

  datatype EventType =
    | PaymentReceived | PaymentValidated | PaymentValidationFailed | PaymentReserved
    | PaymentSubmitted | PaymentSettled | PaymentReturned
  datatype EventKey =
    | Lifecycle(id: PaymentId, eventType: EventType)
    | WebhookTest(endpoint: EndpointId, sentAt: int)
  datatype Payload =
    | LifecyclePayload(merchantId: MerchantId, status: PaymentStatus, amount: int, currency: string,
                       direction: Direction, validationCode: Option<string>, returnCode: Option<string>)
    | TestPayload(merchantId: MerchantId)

  /** `covered` records the endpoints that were active when the event was last materialised;
      like the handlers inside the claim it is bookkeeping of the model. */
  datatype OutboxRow = OutboxRow(payload: Payload, claim: Claim, covered: Option<set<EndpointId>>)

  datatype Endpoint = Endpoint(merchantId: MerchantId, isActive: bool)
  datatype IdempotencyRecord = IdempotencyRecord(paymentId: PaymentId, fingerprint: Details)

  /** A generated file. The stored SHA-256 is represented by the text it digests. */
  datatype AchFile = AchFile(companyId: MerchantId, day: Day, totalEntries: nat, debitTotal: int,
                             creditTotal: int, entryHash: nat, digestOf: string)
  datatype Day = Day(year: nat, month: nat, date: nat)

  datatype Db = Db(
    merchants: map<MerchantId, Merchant>,
    accounts: map<AccountId, AccountStatus>,
    payments: map<PaymentId, Payment>,
    holds: map<PaymentId, Hold>,
    ledger: map<EntryKey, Entry>,
    usage: map<(MerchantId, int), int>,
    outbox: map<EventKey, OutboxRow>,
    idempotency: map<(MerchantId, string), IdempotencyRecord>,
    files: seq<AchFile>,
    endpoints: map<EndpointId, Endpoint>,
    deliveries: map<(EventKey, EndpointId), Payload>,
    charges: seq<PaymentId>)   // bookkeeping: one element per write of a merchant's daily usage

  const EMPTY := Db(map[], map[], map[], map[], map[], map[], map[], map[], [], map[], map[], [])

  // ---------- Shared row operations ----------

  function AccountOf(d: Details): AccountId {
    AccountId(d.merchantId, d.currency)
  }

  const MS_PER_DAY := 86_400_000

  /** The UTC business date of a payment, as a day number: days run from midnight to midnight. */
  function BusinessDate(p: Payment): (day: int)
    ensures day * (24 * 60 * 60 * 1_000) <= p.createdAt < (day + 1) * (24 * 60 * 60 * 1_000)
  {
    p.createdAt / MS_PER_DAY
  }

  function Utilized(usage: map<(MerchantId, int), int>, m: MerchantId, day: int): int {
    if (m, day) in usage then usage[(m, day)] else 0
  }

  /** `paymentLifecycleOutboxEvent(payment, type, occurredAt, returnCode)`, without the time. */
  function NewEvent(p: Payment, returnCode: Option<string>): OutboxRow {
    OutboxRow(LifecyclePayload(p.details.merchantId, p.status, p.details.amount, p.details.currency,
                               p.details.direction, p.validationCode, returnCode),
              FRESH, None)
  }

  /** `outboxEvent.create` for the payment as it now stands. */
  function EmitEvent(db: Db, id: PaymentId, eventType: EventType, returnCode: Option<string> := None): Result<Db>
    requires id in db.payments
  {
    var key := Lifecycle(id, eventType);
    if key in db.outbox then Err(UniqueViolation)
    else Ok(db.(outbox := db.outbox[key := NewEvent(db.payments[id], returnCode)]))
  }

  /** `ledgerEntry.create`. */
  function PostEntry(db: Db, key: EntryKey, entry: Entry): Result<Db> {
    if key in db.ledger then Err(UniqueViolation)
    else Ok(db.(ledger := db.ledger[key := entry]))
  }

  /** `payment.update({ data: { status } })`. */
  function SetStatus(db: Db, id: PaymentId, status: PaymentStatus): Db
    requires id in db.payments
  {
    db.(payments := db.payments[id := db.payments[id].(status := status)])
  }

  function SetHold(db: Db, id: PaymentId, hold: Hold): Db {
    db.(holds := db.holds[id := hold])
  }

  /** One step of the claim protocol on one outbox row. */
  function StepRow(db: Db, key: EventKey, step: RowStep, maxAttempts: nat): Db
    requires key in db.outbox
  {
    var row := db.outbox[key];
    db.(outbox := db.outbox[key := row.(claim := OutboxProtocol.Apply(row.claim, step, maxAttempts))])
  }

  /** A failed transaction is rolled back. */
  function Commit(db: Db, r: Result<Db>): Db {
    if r.Ok? then r.value else db
  }

  /** The balance effect of an entry: the sign table of the SQL sum and of `entryImpact`. */
  function Impact(e: Entry): int {
    match e.entryType
    case InitialCredit | CreditPosted | ReturnEntry | Reversal | Adjustment => e.amount
    case DebitPosted => -e.amount
    case _ => 0
  }
}
