/** The whole system: every actor's atomic steps on the shared tables, and their runs. */
module System {
  import opened Text
  import opened Store
  import opened OutboxProtocol
  import opened WorkerLifecycle
  import Engine = PaymentEngine
  import Exports
  import Creation

  datatype Step =
    // administration
    | Onboard(m: MerchantId, profile: Profile)
    | SetMerchantStatus(m: MerchantId, status: MerchantStatus)
    | SetAccount(a: AccountId, accountStatus: AccountStatus)
    | ProvisionFunding(a: AccountId, amount: int)
    | SetEndpoint(e: EndpointId, m: MerchantId, isActive: bool)
    | RemoveEndpoint(e: EndpointId)
    | SendWebhookTest(e: EndpointId, sentAt: int)
    // merchant API
    | CreatePayment(request: Creation.Request, clientKey: string, caller: MerchantId, id: PaymentId, now: int)
    | ApiValidate(id: PaymentId)
    | ApiReserve(id: PaymentId)
    | ApiSettle(id: PaymentId)
    | ApiReturn(id: PaymentId, returnCode: string)
    // outbox workers; t is the attempt number the handler read when it claimed the row
    | ClaimRow(key: EventKey)
    | ExpireLease(key: EventKey)
    | ValidateReceived(key: EventKey, t: nat, seen: MerchantStatus)
    | MaterialiseWebhooks(key: EventKey, t: nat)
    | MarkRowProcessed(key: EventKey, t: nat)
    | MarkRowFailed(key: EventKey, t: nat)
    | CrashHandler(key: EventKey, t: nat)
    // bank callbacks and NACHA export in the worker
    | WorkerSettle(id: PaymentId)
    | WorkerReturn(id: PaymentId, returnCode: string)
    | WorkerRelease(id: PaymentId)
    | GenerateFile(day: Day)

  /** `provisionDemoFunding`. */
  function ProvisionTxn(db: Db, a: AccountId, amount: int): Result<Db> {
    if amount <= 0 then Err(BadRequest)
    else if a.merchantId !in db.merchants then Err(NotFound)
    else
      var db1 := if a in db.accounts then db else db.(accounts := db.accounts[a := AccountActive]);
      if !db1.accounts[a].AccountActive? then Err(BadRequest)
      else if DemoFundingKey(a) in db1.ledger then Ok(db1)
      else PostEntry(db1, DemoFundingKey(a), Entry(a, None, InitialCredit, amount))
  }

  /** The verdict of the rules; `seen` is the merchant status the handler read, which may be
      out of date by the time its transaction runs. */
  function SeenVerdict(db: Db, id: PaymentId, seen: MerchantStatus): Verdict
    requires id in db.payments
  {
    var d := db.payments[id].details;
    ValidatePayment(d, if d.merchantId in db.merchants
                       then Some(Merchant(db.merchants[d.merchantId].profile, seen)) else None)
  }

  ghost function ValidationOutcome(db: Db, key: EventKey, v: Verdict): Result<Db>
    requires key.Lifecycle?
  {
    if v.Pass? then ReserveDailyUsageAndTransition(db, key.id, key) else TransitionFromReceived(db, key.id, v)
  }

  /** The handler's first stage for a PAYMENT_RECEIVED event: `PaymentValidationService.validate`. */
  ghost function ValidateTxn(db: Db, key: EventKey, t: nat, seen: MerchantStatus): Result<Db> {
    if !(key.Lifecycle? && key.eventType.PaymentReceived?) || !HandlerAt(db, key, t, AtStart) then Err(NotFound)
    else if key.id !in db.payments then Err(NotFound)
    else
      var done :- ValidationOutcome(db, key, SeenVerdict(db, key.id, seen));
      if key in done.outbox then Ok(StepRow(done, key, Advance(t, PastValidation), 0)) else Err(NotFound)
  }

  predicate HandlerAt(db: Db, key: EventKey, t: nat, phase: Phase) {
    && key in db.outbox
    && t in db.outbox[key].claim.handlers
    && db.outbox[key].claim.handlers[t] == phase
  }

  function ActiveEndpoints(db: Db, m: MerchantId): set<EndpointId> {
    set e | e in db.endpoints && db.endpoints[e] == Endpoint(m, true)
  }

  /** `createMany` with `skipDuplicates`. */
  function NewDeliveries(db: Db, key: EventKey, active: set<EndpointId>): map<(EventKey, EndpointId), Payload>
    requires key in db.outbox
  {
    map e | e in active && (key, e) !in db.deliveries :: (key, e) := db.outbox[key].payload
  }

  function Delivered(db: Db, key: EventKey, active: set<EndpointId>): Db
    requires key in db.outbox
  {
    db.(outbox := db.outbox[key := db.outbox[key].(covered := Some(active))],
        deliveries := db.deliveries + NewDeliveries(db, key, active))
  }

  /** `materialize`: one delivery per endpoint active now; a webhook test has its delivery already. */
  function MaterialiseTxn(db: Db, key: EventKey, t: nat): Result<Db> {
    var stage := if key.Lifecycle? && key.eventType.PaymentReceived? then PastValidation else AtStart;
    if !HandlerAt(db, key, t, stage) then Err(NotFound)
    else
      var delivered := if key.WebhookTest? then db
                       else Delivered(db, key, ActiveEndpoints(db, db.outbox[key].payload.merchantId));
      Ok(StepRow(delivered, key, Advance(t, PastMaterialisation), 0))
  }

  /** `WebhookTest` creates the event together with its one delivery. */
  function SendTestTxn(db: Db, e: EndpointId, sentAt: int): Result<Db> {
    if e !in db.endpoints then Err(NotFound)
    else
      var key := WebhookTest(e, sentAt);
      var payload := TestPayload(db.endpoints[e].merchantId);
      if key in db.outbox || (key, e) in db.deliveries then Err(UniqueViolation)
      else Ok(db.(outbox := db.outbox[key := OutboxRow(payload, FRESH, None)],
                  deliveries := db.deliveries[(key, e) := payload]))
  }

  function RowTxn(db: Db, key: EventKey, step: RowStep, maxAttempts: nat): Result<Db> {
    if key in db.outbox then Ok(StepRow(db, key, step, maxAttempts)) else Err(NotFound)
  }

  /** Merchant ids are UUIDs: new, and free of colons. */
  function OnboardTxn(db: Db, m: MerchantId, profile: Profile): Result<Db> {
    if m in db.merchants || !ColonFree(m) then Err(UniqueViolation)
    else Ok(db.(merchants := db.merchants[m := Merchant(profile, Active)]))
  }

  function MerchantStatusTxn(db: Db, m: MerchantId, status: MerchantStatus): Result<Db> {
    if m !in db.merchants then Err(NotFound)
    else Ok(db.(merchants := db.merchants[m := db.merchants[m].(status := status)]))
  }

  function EndpointTxn(db: Db, e: EndpointId, m: MerchantId, isActive: bool): Result<Db> {
    if e in db.endpoints && db.endpoints[e].merchantId != m then Err(NotFound)
    else Ok(db.(endpoints := db.endpoints[e := Endpoint(m, isActive)]))
  }

  function HasDelivery(db: Db, e: EndpointId): bool {
    exists k :: k in db.deliveries && k.1 == e
  }

  /** An endpoint with deliveries is disabled instead of deleted. */
  function RemoveEndpointTxn(db: Db, e: EndpointId): Result<Db> {
    if e !in db.endpoints then Err(NotFound)
    else if HasDelivery(db, e) then Ok(db.(endpoints := db.endpoints[e := db.endpoints[e].(isActive := false)]))
    else Ok(db.(endpoints := db.endpoints - {e}))
  }

  // ---------- The kinds of steps ----------

  predicate IsPaymentStep(step: Step) {
    step.CreatePayment? || step.ApiValidate? || step.ApiReserve? || step.GenerateFile?
  }

  ghost function PaymentTxn(db: Db, step: Step): Result<Db>
    requires IsPaymentStep(step)
  {
    match step
    case CreatePayment(request, clientKey, caller, id, now) =>
      Creation.Create(db, request, clientKey, caller, id, now)
    case ApiValidate(id) => Engine.Validate(db, id)
    case ApiReserve(id) => Engine.Reserve(db, id)
    case GenerateFile(day) => Exports.Generate(db, day)
  }

  predicate IsApiSettlementStep(step: Step) {
    step.ApiSettle? || step.ApiReturn?
  }

  function ApiSettlementTxn(db: Db, step: Step): Result<Db>
    requires IsApiSettlementStep(step)
  {
    match step
    case ApiSettle(id) => Engine.Settle(db, id)
    case ApiReturn(id, returnCode) => Engine.Return(db, id, returnCode)
  }

  predicate IsBankStep(step: Step) {
    step.WorkerSettle? || step.WorkerReturn? || step.WorkerRelease?
  }

  function BankTxn(db: Db, step: Step): Result<Db>
    requires IsBankStep(step)
  {
    match step
    case WorkerSettle(id) => Settle(db, id)
    case WorkerReturn(id, returnCode) => Return(db, id, returnCode)
    case WorkerRelease(id) => Release(db, id)
  }

  predicate IsSettlementStep(step: Step) {
    IsBankStep(step) || IsApiSettlementStep(step)
  }

  predicate IsHandlerStep(step: Step) {
    step.ValidateReceived? || step.MaterialiseWebhooks?
  }

  ghost function HandlerTxn(db: Db, step: Step): Result<Db>
    requires IsHandlerStep(step)
  {
    match step
    case ValidateReceived(key, t, seen) => ValidateTxn(db, key, t, seen)
    case MaterialiseWebhooks(key, t) => MaterialiseTxn(db, key, t)
  }

  predicate IsClaimStep(step: Step) {
    || step.ClaimRow? || step.ExpireLease? || step.MarkRowProcessed? || step.MarkRowFailed? || step.CrashHandler?
  }

  /** The step of the claim protocol that such a step performs. */
  function ClaimStep(step: Step): RowStep
    requires IsClaimStep(step)
  {
    match step
    case ClaimRow(_) => Acquire
    case ExpireLease(_) => Expire
    case MarkRowProcessed(_, t) => MarkProcessed(t)
    case MarkRowFailed(_, t) => MarkFailed(t)
    case CrashHandler(_, t) => Crash(t)
  }

  predicate IsSettingStep(step: Step) {
    !IsPaymentStep(step) && !IsSettlementStep(step) && !IsHandlerStep(step) && !IsClaimStep(step)
  }

  function SettingTxn(db: Db, step: Step): Result<Db>
    requires IsSettingStep(step)
  {
    match step
    case Onboard(m, profile) => OnboardTxn(db, m, profile)
    case SetMerchantStatus(m, status) => MerchantStatusTxn(db, m, status)
    case SetAccount(a, status) => Ok(db.(accounts := db.accounts[a := status]))
    case ProvisionFunding(a, amount) => ProvisionTxn(db, a, amount)
    case SetEndpoint(e, m, isActive) => EndpointTxn(db, e, m, isActive)
    case RemoveEndpoint(e) => RemoveEndpointTxn(db, e)
    case SendWebhookTest(e, sentAt) => SendTestTxn(db, e, sentAt)
  }

  ghost function Txn(db: Db, step: Step, maxAttempts: nat): Result<Db> {
    if IsPaymentStep(step) then PaymentTxn(db, step)
    else if IsApiSettlementStep(step) then ApiSettlementTxn(db, step)
    else if IsBankStep(step) then BankTxn(db, step)
    else if IsHandlerStep(step) then HandlerTxn(db, step)
    else if IsClaimStep(step) then RowTxn(db, step.key, ClaimStep(step), maxAttempts)
    else SettingTxn(db, step)
  }

  ghost function Next(db: Db, step: Step, maxAttempts: nat): Db {
    Commit(db, Txn(db, step, maxAttempts))
  }

  ghost function Run(db: Db, steps: seq<Step>, maxAttempts: nat): Db
    decreases |steps|
  {
    if steps == [] then db
    else Next(Run(db, steps[..|steps| - 1], maxAttempts), steps[|steps| - 1], maxAttempts)
  }

  lemma RunSnoc(db: Db, steps: seq<Step>, step: Step, maxAttempts: nat)
    ensures Run(db, steps + [step], maxAttempts) == Next(Run(db, steps, maxAttempts), step, maxAttempts)
  {
    assert (steps + [step])[..|steps + [step]| - 1] == steps;
  }

  lemma RunTake(db: Db, steps: seq<Step>, i: nat, maxAttempts: nat)
    requires i < |steps|
    ensures Run(db, steps[..i + 1], maxAttempts) == Next(Run(db, steps[..i], maxAttempts), steps[i], maxAttempts)
  {
    assert steps[..i + 1] == steps[..i] + [steps[i]];
    RunSnoc(db, steps[..i], steps[i], maxAttempts);
  }

  lemma {:induction false} RunConcat(db: Db, first: seq<Step>, second: seq<Step>, maxAttempts: nat)
    ensures Run(db, first + second, maxAttempts) == Run(Run(db, first, maxAttempts), second, maxAttempts)
    decreases |second|
  {
    if second == [] {
      assert first + second == first;
    } else {
      var before := second[..|second| - 1];
      RunConcat(db, first, before, maxAttempts);
      assert first + second == (first + before) + [second[|second| - 1]];
      RunSnoc(db, first + before, second[|second| - 1], maxAttempts);
    }
  }

  /** What holds at first and is handed on by every step holds all along. */
  lemma {:induction false} HandedOn(flags: seq<bool>, i: nat)
    requires i < |flags| && flags[0]
    requires forall j | 0 <= j < |flags| - 1 :: flags[j] ==> flags[j + 1]
    ensures flags[i]
  {
    if i > 0 {
      HandedOn(flags, i - 1);
    }
  }

  /** What holds at first, and is lost by a step exactly when the step is bad, always holds exactly without bad steps. */
  lemma LostByBadSteps(flags: seq<bool>, bad: seq<bool>)
    requires |flags| == |bad| + 1 && flags[0]
    requires forall j | 0 <= j < |bad| && flags[j] :: flags[j + 1] <==> !bad[j]
    ensures (forall i | 0 <= i < |flags| :: flags[i]) <==> (forall j | 0 <= j < |bad| :: !bad[j])
  {
    if forall j | 0 <= j < |bad| :: !bad[j] {
      forall i | 0 <= i < |flags| ensures flags[i] {
        HandedOn(flags, i);
      }
    }
    if forall i | 0 <= i < |flags| :: flags[i] {
      forall j | 0 <= j < |bad| ensures !bad[j] {
        assert flags[j] && flags[j + 1];
      }
    }
  }

  /** The states along a run. */
  ghost function States(db: Db, steps: seq<Step>, maxAttempts: nat): (states: seq<Db>)
    ensures |states| == |steps| + 1
  {
    seq(|steps| + 1, i requires 0 <= i <= |steps| => Run(db, steps[..i], maxAttempts))
  }

  lemma FirstState(db: Db, steps: seq<Step>, maxAttempts: nat)
    ensures States(db, steps, maxAttempts)[0] == db
  {
  }

  lemma NextState(db: Db, steps: seq<Step>, i: nat, maxAttempts: nat)
    requires i < |steps|
    ensures States(db, steps, maxAttempts)[i + 1] == Next(States(db, steps, maxAttempts)[i], steps[i], maxAttempts)
  {
    RunTake(db, steps, i, maxAttempts);
  }

  /** Some run leads from one state to the other. */
  ghost predicate Leads(db: Db, d: Db, maxAttempts: nat) {
    exists steps :: d == Run(db, steps, maxAttempts)
  }

  /** A state some run from the empty database arrives at. */
  ghost predicate Reachable(db: Db, maxAttempts: nat) {
    exists steps :: db == Run(EMPTY, steps, maxAttempts)
  }

  lemma RunIsReachable(db: Db, steps: seq<Step>, maxAttempts: nat)
    requires Reachable(db, maxAttempts)
    ensures Reachable(Run(db, steps, maxAttempts), maxAttempts)
  {
    var first :| db == Run(EMPTY, first, maxAttempts);
    RunConcat(EMPTY, first, steps, maxAttempts);
  }

  lemma LeadsNext(db: Db, d: Db, step: Step, maxAttempts: nat)
    requires Leads(db, d, maxAttempts)
    ensures Leads(db, Next(d, step, maxAttempts), maxAttempts)
  {
    var steps :| d == Run(db, steps, maxAttempts);
    RunSnoc(db, steps, step, maxAttempts);
  }

  lemma LeadsNowhere(db: Db, maxAttempts: nat)
    ensures Leads(db, db, maxAttempts)
  {
    assert db == Run(db, [], maxAttempts);
  }

  lemma LeadsOn(a: Db, b: Db, c: Db, maxAttempts: nat)
    requires Leads(a, b, maxAttempts) && Leads(b, c, maxAttempts)
    ensures Leads(a, c, maxAttempts)
  {
    var first :| b == Run(a, first, maxAttempts);
    var second :| c == Run(b, second, maxAttempts);
    RunConcat(a, first, second, maxAttempts);
  }

  lemma ExportIsReachable(db: Db, day: Day, maxAttempts: nat)
    requires Reachable(db, maxAttempts)
    ensures Reachable(Commit(db, Exports.Generate(db, day)), maxAttempts)
  {
    NextExports(db, day, maxAttempts);
    StepIsReachable(db, GenerateFile(day), maxAttempts);
  }

  lemma NextExports(db: Db, day: Day, maxAttempts: nat)
    ensures Next(db, GenerateFile(day), maxAttempts) == Commit(db, Exports.Generate(db, day))
  {
  }

  lemma StepIsReachable(db: Db, step: Step, maxAttempts: nat)
    requires Reachable(db, maxAttempts)
    ensures Reachable(Next(db, step, maxAttempts), maxAttempts)
  {
    var steps :| db == Run(EMPTY, steps, maxAttempts);
    RunSnoc(EMPTY, steps, step, maxAttempts);
  }
}
