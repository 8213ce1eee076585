# ACHFlow: a verified model of its payment engine

ACHFlow moves money for merchants. An API accepts payments, a worker validates and reserves them from an
outbox, exports them as ACH files, and bank callbacks settle or return them. Two services - the worker's
repository and the API's engine - implement the same lifecycle independently, several workers run at once,
leases expire and requests race. This project models that machinery in Dafny and proves what it keeps.

## How the project is built

* **One database, one atomic step per transaction.** `Store` holds the tables as one value `Db`.
  `WorkerLifecycle`, `PaymentEngine`, `Creation` and `Exports` say what each transaction commits or with which
  error it is rolled back. `System` puts all actors' transactions together: 23 kinds of step, runs of steps,
  and the states that a run can reach from the empty database.
* **The services, statement by statement.** `Database.Tables` is the updatable database: one field for each
  table, unique keys that make an insert fail, rollback. `LifecycleRepository`, `PaymentEngineService`,
  `PaymentsService`, `OutboxRepository`, `OutboxWorker`, `OutboxPolling`, `NachaRenderer`, `GeneratedText` and
  `NachaFileGenerator` are the repository's classes with their loops and in-place updates. Each public method
  is proved to leave exactly the state, and to return exactly the error, that the specification says, so what
  is proved of all runs of `System` holds of them.
* **The invariant.** `Effects` states each payment's ledger entries, events and reservation as a function of its
  status; `Mirroring`, `Balances`, `Metering`, `Rendering` and `Records` show that every committed effect keeps
  that, the balance equation, the usage equation, the stored files and the idempotency records. `Invariants`
  and `Safety` put it together for every step, `History` shows what later states keep, and `Theorems`,
  `Announcements`, `ExportAll` and `Idempotency` draw the conclusions.
* **In the terms of a caller.** `Calendar`, `Verdicts` and `PrintedFiles` say what the usage rows, a validation and a
  file mean without the functions that compute them: days from midnight to midnight, the code of the first broken rule,
  the columns of a line.
* **What fails, and exactly when.** `Moves` reduces every transaction on a payment to one of twelve changes. From
  it `Solvency`, `DailyLimits`, `Delivery`, `Attempts` and `Stranding` derive the exact conditions under which funds go
  short, the daily limit is passed, a PAYMENT_RECEIVED event is lost, an event is claimed too often and a credit is
  exported without funds. `StaleValidation` and `StaleRuns` do the same for the API's validation, whose transaction
  does not look at the payment again. `Witnesses` holds the opening steps of the runs that show each of these does
  happen.
* **Independent parts.** `OutboxProtocol` (claims, leases, retries of one row), `NachaRecords`, `NachaReading` and
  `NachaText` (widths, blocking, totals and line breaks of the generated file), `RateLimit`, `Simulator`,
  `LedgerListing`, `LedgerCsv`, `Keys`, with `Text` and `MapSums` below them.

`dafny verify dfyconfig.toml` checks everything.

## What turned out

* `maxAttempts` does not bound the attempts of an outbox event. A handler whose lease was lost still acts with
  the attempt number it read, so an event can be claimed up to `2 * maxAttempts - 1` times, and some run of the
  system does so. `maxAttempts` is the bound along a run if and only if no handler with an older number reports a
  failure while the last attempt is running.
* A credit that settles writes an audit entry only, and its return adds to the posted balance; debits are posted
  at settlement without a funding check. Available funds can therefore go negative, by any amount: a debit of any
  size settles against any funds. They do so exactly when a SUBMITTED debit settles that is larger than what is
  available, and they are never short by more than the debits that are settled and not returned.
* The daily limit does not bound what is accepted. The usage is charged by the API's reserve and by the worker's
  validation, for exactly the payment admitted; a debit that the API validates is accepted without either, and never
  charged later. Some run accepts a debit of any amount under any limit. The usage counts every accepted payment along
  a run if and only if the API validates no debit in it, and then the limit holds for every merchant and day.
* The export takes every VALIDATED payment, and the API validates a credit without reserving it. Such a credit, once
  exported, is stranded: it stays SUBMITTED on every continuation, and settlement, return and reservation all refuse
  it. No credit is stranded along a run if and only if no export takes one without a reservation along.
* A PAYMENT_RECEIVED event becomes PROCESSED inside the validation transaction of a payment that passes, which
  delivers nothing itself. If its handler stops there, the event is lost: PROCESSED, and never delivered on any
  continuation. A PROCESSED event without deliveries is lost exactly when no live handler is past its validation, or
  still before it while the payment is RECEIVED, VALIDATED or VALIDATION_FAILED. For every other lifecycle event,
  PROCESSED implies deliveries for all endpoints active at the materialisation.
* The API's validation reads the payment before its transaction and updates it by id alone. If the worker rejects
  the payment in between, it ends up with both outcomes, PAYMENT_VALIDATION_FAILED and PAYMENT_VALIDATED. With read and
  write as steps of their own, a run keeps the invariant if and only if no late write meets a rejected payment; the
  other results are about runs that take the two halves as one step.
* The text of a file falls apart into lines of 94 characters exactly when no line break stands in the parts of
  names, account references and codes that it shows.
* The wait that the rate limiter returns comes from a TTL that Redis rounds to the nearest second. Waiting it
  reaches a later window if and only if the call's millisecond is at most 500 above that of the counter's first
  call, or the window is in its last second; on a clock of whole seconds it always does.
* The worker's return accepts a payment that is still VALIDATED; no reachable state takes that arm, so both
  services return the same payments.
* The repository's own README describes the posted balance without RETURN, REVERSAL and ADJUSTMENT entries; the
  code adds them, and the model follows the code.

## Model

| member | source | states |
|---|---|---|
| Theorems.FundsGoShortOnlyByOverdrawing | apps/worker/src/payments/payment-lifecycle.repository.ts:233-297 | from every reachable state, a step takes an account's available funds below zero if and only if it settles a SUBMITTED debit of that usable account for more than is available; along a run they stay non-negative if and only if no step of it does so |
| Solvency.OverdraftIsReached | apps/worker/src/payments/payment-lifecycle.repository.ts:233-297 | for any funds and any debit amount some run leaves the account with exactly their difference, so available funds do go negative |
| Solvency.StepStaysFunded | apps/api/src/payments/payment-engine.service.ts:181-302 | the step condition for all 23 kinds of step, by either service, on any consistent tables |
| Solvency.RunStaysFunded | apps/worker/src/payments/payment-lifecycle.repository.ts:134-431 | the run condition, from any state that satisfies the invariant |
| Moves.MovedFunds | apps/worker/src/payments/payment-lifecycle.repository.ts:147-431 | each of the twelve changes that a transaction on payments can commit moves every account's available funds by exactly its gain: only reservations and settled debits lower them |
| Theorems.FundingIsNeverOversubscribed | apps/worker/src/payments/payment-lifecycle.repository.ts:134-431 | in every reachable state and for every account, posted balance minus active reservations plus settled unreturned debits is never negative, and the posted balance is initial credits minus settled debits plus returned credits |
| Theorems.DailyUsageIsExact | apps/worker/src/payments/payment-lifecycle.repository.ts:511-615 | a merchant's usage of a business day is the sum of the payments charged, none twice whichever service admitted it, within the limit; every charged payment was admitted, and a credit is charged exactly when it holds a reservation; Calendar says which payments share a business day |
| Calendar.UsageRowsAreCalendarDays | apps/worker/src/payments/payment-lifecycle.repository.ts:696-704 | two payments share a usage row if and only if they are of one merchant and both were created in the same interval of 24 * 60 * 60 * 1000 ms from one UTC midnight to the next |
| Calendar.ChargedPerCalendarDay | apps/worker/src/payments/payment-lifecycle.repository.ts:511-541 | for every merchant and every such interval, the charged amounts of the payments created in it sum to at most the dailyAmountLimit, in every reachable state |
| Calendar.LimitIsDecidedPerDay | apps/api/src/payments/payment-engine.service.ts:88-103 | the worker refuses a payment for the daily limit, and the API the reservation of a credit that it could fund, if and only if its amount does not fit what is charged of the payments its merchant created between the same two midnights |
| Calendar.AcceptedPerCalendarDay | apps/worker/src/payments/payment-lifecycle.repository.ts:600-615 | the accepted total of a business day, of which the DailyLimits results speak, is that of the payments created between two midnights |
| Charging.StepCharges | apps/worker/src/payments/payment-lifecycle.repository.ts:511-615 | every step charges exactly the payment it admits, once: the API's reserve when it writes the reservation, the worker's validation when it takes the payment from RECEIVED to VALIDATED; no other step charges |
| Charging.ApiDebitIsNeverCharged | apps/api/src/payments/payment-engine.service.ts:22-68 | a debit validated by the API is charged neither by that step nor in any continuation |
| DailyLimits.StepAccepts | apps/api/src/payments/payment-engine.service.ts:22-179 | which payment a step accepts, if any, can be read off the state before it, for every kind of step; accepting it adds it to the accepted payments once, and to the charges unless the step is the API's validation |
| DailyLimits.ValidatedDebitIsCharged | apps/worker/src/payments/payment-lifecycle.repository.ts:511-615 | a step that takes a debit from RECEIVED to VALIDATED charges it if and only if it is not the API's validation of it |
| DailyLimits.RunStaysCounted | apps/api/src/payments/payment-engine.service.ts:22-68 | along a run every accepted payment is charged if and only if no step of it is the API's validation of a RECEIVED debit that meets the requirements |
| DailyLimits.UsageIsAcceptedIffCounted | apps/worker/src/payments/payment-lifecycle.repository.ts:600-615 | the usage of every merchant and day is the sum of the accepted debits and reserved credits if and only if each of them is charged |
| DailyLimits.AcceptedIsUsageAndUncounted | apps/worker/src/payments/payment-lifecycle.repository.ts:600-615 | in general the accepted sum is the usage plus the accepted debits that were not charged |
| DailyLimits.CountedRunIsWithin | apps/worker/src/payments/payment-lifecycle.repository.ts:511-541 | along a run in which the API validates no debit, the accepted debits and reserved credits of every merchant and day stay within its dailyAmountLimit |
| DailyLimits.RunStaysWithinDaily | apps/api/src/payments/payment-engine.service.ts:22-179 | in every run they stay within it if and only if no step is about to accept a payment that does not fit what was accepted before |
| DailyLimits.StepStaysWithinDaily | apps/api/src/payments/payment-engine.service.ts:22-179 | the same for one step, which adds exactly the accepted payment's amount to its own merchant and day |
| DailyLimits.OnlyUncountedExceeds | apps/worker/src/payments/payment-lifecycle.repository.ts:511-541 | while every accepted payment is charged, only the API's validation of a debit can pass the limit |
| DailyLimits.LimitIsExceeded | apps/api/src/payments/payment-engine.service.ts:22-68 | for any amount and any daily limit some run ends with a debit of that amount VALIDATED, uncharged, and accepted on its merchant's day |
| Stranding.StepStrands | apps/worker/src/ach/nacha-file-generator.service.ts:54-73 | a step leaves a SUBMITTED credit without a reservation if and only if it is an export whose batch holds a credit without one |
| Stranding.RunStrands | apps/worker/src/ach/nacha-file-generator.service.ts:54-73 | along a run no credit is stranded if and only if no export takes such a credit along |
| Stranding.StrandedNeverSettles | apps/worker/src/payments/payment-lifecycle.repository.ts:172-361 | a stranded credit stays SUBMITTED and unreserved on every continuation, and settlement, return and reservation refuse it |
| Stranding.StrandedIsReached | apps/api/src/payments/payment-engine.service.ts:22-68 | some run strands a credit: validated by the API, not reserved, exported |
| Theorems.OneValidationOutcome | apps/worker/src/payments/payment-lifecycle.repository.ts:86-132 | a payment has one of PAYMENT_VALIDATED and PAYMENT_VALIDATION_FAILED exactly when it left RECEIVED, never both, on runs that take the API's read and write as one step (StaleRuns has the others); its reservation matches its status, amount and direction, and its ledger keys are a function of both |
| Theorems.StatusesOnlyAdvance | apps/worker/src/payments/payment-lifecycle.repository.ts:147-431 | in every later state the payment and its reservation have only moved forward, and ledger entries are never rewritten, so it settles and returns at most once |
| Theorems.NoUniqueViolation | apps/api/prisma/schema.prisma:155-193 | no transition other than one with client-chosen keys ever inserts a key already present |
| Theorems.FundingNeedsTheClaim | apps/worker/src/payments/payment-lifecycle.repository.ts:643-694 | reservation, ledger and usage writes of a validation commit only together with PROCESSING to PROCESSED on its event |
| Theorems.SettlementServicesAgree | apps/api/src/payments/payment-engine.service.ts:181-302 | the API's and the worker's settlement both succeed and commit the same tables or both fail, on every reachable state; which label a failure carries is the model's choice, the worker throws one error class |
| Theorems.ReturnServicesAgree | apps/api/src/payments/payment-engine.service.ts:304-424 | so do their returns, although the two check different things; again only success or failure is the code's |
| Theorems.DownloadsNeverChange | apps/api/src/nacha-files/nacha-files.service.ts:169-188 | at every later time a download is exactly the text hashed at generation, for an administrator and for the file's own merchant; another merchant finds nothing |
| Theorems.EveryEventIsBounded | apps/worker/src/outbox/outbox.repository.ts:9-98 | every event's attempts stay within 2 * maxAttempts - 1, and PROCESSED and FAILED are never left |
| Theorems.ProcessedEventsAreDelivered | apps/worker/src/outbox/outbox.handler.ts:28-45 | a PROCESSED event other than PAYMENT_RECEIVED was materialised and has a delivery for each endpoint active then |
| Theorems.AcceptanceDeliversNothing | apps/worker/src/payments/payment-lifecycle.repository.ts:470-653 | the validation of a payment that passes makes its PAYMENT_RECEIVED event PROCESSED, adds no delivery and leaves the event covered or not as it was |
| Delivery.ProcessingCovers | apps/worker/src/outbox/outbox.handler.ts:28-49 | a PAYMENT_RECEIVED event becomes PROCESSED only by its handler's report or its validation, and is then covered if and only if it was that report or deliveries had been made before |
| Delivery.LostIffNeverCovered | apps/worker/src/outbox/outbox.handler.ts:28-62 | a PROCESSED event without deliveries is never materialised on any continuation if and only if no live handler is past its validation, or before it with a payment that a rejection would still accept |
| Delivery.LostIsNeverDelivered | apps/worker/src/webhooks/webhook-delivery-materializer.service.ts:33-87 | a lost event stays lost, and no endpoint ever gets a delivery of it |
| Delivery.ReceivedCanBeLost | apps/worker/src/outbox/outbox.handler.ts:28-62 | some run reaches a lost event whose merchant has an active endpoint: the payment passes, the handler dies right after |
| Delivery.StepKeepsRow | apps/worker/src/outbox/outbox.repository.ts:9-98 | of all steps only claims and handlers of an event rewrite its row |
| Theorems.MaterialisationCoversActiveEndpoints | apps/worker/src/webhooks/webhook-delivery-materializer.service.ts:51-79 | a materialisation adds exactly the missing deliveries for the endpoints of the event's merchant that are switched on at that step, each with the event's payload, records those endpoints, and leaves existing deliveries as they are |
| Theorems.AdmissionServicesAgree | apps/api/src/payments/payment-engine.service.ts:22-179 | for a credit that meets the requirements, the API's validate then reserve succeed exactly when the worker's one transaction accepts it, with the same tables apart from the completed outbox row |
| Announcements.DeliveriesTellTheTruth | apps/api/prisma/payment-lifecycle-event.factory.ts:14-37 | every webhook delivery carries its event's payload, goes to an endpoint of the payment's own merchant, and tells that payment's data and the status its event is about, with the payment's validation code exactly for a failed validation and a return code exactly for a return |
| Announcements.EveryRunIsTruthful | apps/worker/src/webhooks/webhook-delivery-materializer.service.ts:51-79 | whatever is created, settled, exported, materialised or removed in between, this holds of all events and deliveries |
| Announcements.ReturnTellsTheCode | apps/worker/src/payments/payment-lifecycle.repository.ts:299-431 | a return by either service puts the bank's own code into its event, where it stays at every later time, and on the reservation of a credit or as the failure code of a debit |
| Announcements.EndpointsFollowTheirMerchant | apps/api/src/webhooks/merchant-webhook-endpoints.service.ts:96-123 | an endpoint is switched on or off as its own merchant asks, by no other merchant, and no other endpoint changes |
| Announcements.UsedIsSwitchedOff | apps/api/src/webhooks/merchant-webhook-endpoints.service.ts:125-142 | removing an endpoint to which there are deliveries only switches it off |
| Announcements.UnusedIsRemoved | apps/api/src/webhooks/merchant-webhook-endpoints.service.ts:125-142 | removing one without deliveries takes away its row |
| Agreement.ValidatedArmIsUnreachable | apps/worker/src/payments/payment-lifecycle.repository.ts:327-336 | a settled reservation belongs to a settled payment, so the VALIDATED arm of a return is never taken |
| Agreement.CreditAdmissionAgrees | apps/api/src/payments/payment-engine.service.ts:70-179 | for a credit, the API's validate then reserve accept exactly when the worker's transaction does and leave the same tables, apart from the completed outbox row |
| Agreement.ValidationRulesAgree | apps/worker/src/payments/payment-validation.service.ts:59-144 | the worker's ordered rules pass exactly the payments that meet the API's conjunction of requirements |
| Agreement.WorkerSettleIs | apps/worker/src/payments/payment-lifecycle.repository.ts:172-297 | what a settlement does on consistent tables: nothing, the credit's or the debit's settlement, or which error |
| Agreement.WorkerReturnIs | apps/worker/src/payments/payment-lifecycle.repository.ts:299-431 | the same for a return |
| Agreement.WorkerReleaseIs | apps/worker/src/payments/payment-lifecycle.repository.ts:147-168 | a release of any reservation not yet released always finds its ledger key free |
| Agreement.EngineValidateIs | apps/api/src/payments/payment-engine.service.ts:22-68 | the API's validation moves exactly the RECEIVED payments that meet the requirements |
| Agreement.EngineReserveIs | apps/api/src/payments/payment-engine.service.ts:90-178 | the API's reservation succeeds exactly within the daily limit, on an active account with enough available funds |
| Safety.EveryRunKeepsInv | apps/worker/src/payments/payment-lifecycle.repository.ts:86-694 | every state of every run of all actors satisfies the system invariant |
| Safety.StepKeepsInv | apps/api/src/payments/payment-engine.service.ts:22-424 | each single transaction, of whichever service, keeps it |
| Safety.InsertIs | apps/api/src/payments/payments.repository.ts:60-83 | a creation fails only on a used payment id or stored key; then and only then, event and record keys being free otherwise |
| Safety.GenerateIs | apps/worker/src/ach/nacha-file-generator.service.ts:54-173 | on consistent tables an export never fails: it submits all eligible payments of the first merchant |
| History.RunIsLater | apps/worker/src/payments/payment-lifecycle.repository.ts:86-431 | in later states no row is lost, immutable columns stay, and ledger, records, deliveries and files are append-only |
| Balances.NeverOversubscribed | apps/worker/src/payments/payment-lifecycle.repository.ts:552-596 | the balance equation that every effect keeps implies the funding bound |
| Balances.CreditReturnedBalances | apps/worker/src/payments/payment-lifecycle.repository.ts:338-346 | returning a credit raises the posted balance by exactly what the closed form says |
| Balances.DebitReturnedBalances | apps/worker/src/payments/payment-lifecycle.repository.ts:410-418 | returning a debit cancels its posting on the same account |
| Metering.AddUsageIsExact | apps/worker/src/payments/payment-lifecycle.repository.ts:600-615 | charging a payment adds its amount to its own merchant and day and to no other |
| Metering.ChargeMeters | apps/api/src/payments/payment-engine.service.ts:98-170 | an admission within the limit keeps the usage exact, single and bounded |
| Rendering.SubmitKeepsFiles | apps/worker/src/ach/nacha-file-generator.service.ts:144-157 | a further export leaves every earlier file's payments, order and text alone |
| Rendering.DownloadMatches | apps/api/src/nacha-files/nacha-files.service.ts:169-188 | rendering a stored file again gives the text its hash was taken of, within the caller's scope |
| Records.StoredKeyIsInjective | apps/api/src/payments/payments.service.ts:60-65 | the stored key determines merchant and client key |
| Records.StepIsCovered | apps/worker/src/outbox/outbox-polling.service.ts:71-76 | every claim step keeps it that only materialised events are marked PROCESSED |
| OutboxProtocol.AttemptsNeverExceed | apps/worker/src/outbox/outbox-polling.service.ts:42-101 | whatever claims, expiries, crashes and late handlers do, a row is claimed at most 2 * maxAttempts - 1 times |
| OutboxProtocol.AttemptsBoundIsReached | apps/worker/src/outbox/outbox.repository.ts:34-88 | for every maxAttempts some run reaches that bound |
| OutboxProtocol.WithinIffNeverOverdue | apps/worker/src/outbox/outbox.repository.ts:69-88 | every prefix of a run has at most maxAttempts claims, and fewer while PENDING, if and only if no step of it is a failure reported with an older attempt number below the maximum while the last attempt is PROCESSING |
| OutboxProtocol.PromptAttemptsNeverExceed | apps/worker/src/outbox/outbox.repository.ts:69-88 | in particular when handlers report failures only under their own current claim |
| Attempts.RunStaysWithin | apps/worker/src/outbox/outbox.repository.ts:69-88 | the same equivalence for one event along any run of the whole system |
| Attempts.StepStaysWithin | apps/worker/src/outbox/outbox-polling.service.ts:71-102 | and for a single step of any actor |
| Attempts.BoundIsReachable | apps/worker/src/outbox/outbox.repository.ts:34-88 | for every maxAttempts the system reaches a database with an event claimed 2 * maxAttempts - 1 times |
| OutboxProtocol.TerminalIsForever | apps/worker/src/outbox/outbox.repository.ts:90-98 | updates are guarded by PROCESSING, so PROCESSED and FAILED are final |
| OutboxProtocol.RetryDelayDoubles | apps/worker/src/outbox/outbox.repository.ts:100-102 | the delay starts at a second, doubles, and is capped at a minute |
| OutboxRepository.Repository.ClaimPending | apps/worker/src/outbox/outbox.repository.ts:9-32 | claims the earliest available PENDING rows that no other transaction has locked, at most a batch, and all of them when there are fewer; locked rows stay as they are, each claim is a step of the protocol, and the tickets come back in any order |
| OutboxRepository.ClaimExtends | apps/worker/src/outbox/outbox.repository.ts:15-21 | taking the first claimable row keeps the batch in order and complete |
| OutboxRepository.Repository.RecoverExpiredClaims | apps/worker/src/outbox/outbox.repository.ts:34-58 | recovers row by row, in any order, as steps of the protocol |
| OutboxRepository.EveryRowRecovered | apps/worker/src/outbox/outbox.repository.ts:40-57 | exactly the claims older than the lease are ended, FAILED or PENDING and available now, and no older claim remains |
| OutboxRepository.Repository.MarkProcessed | apps/worker/src/outbox/outbox.repository.ts:60-67 | moves a claimed row to PROCESSED and any other row not at all |
| OutboxRepository.Repository.MarkFailed | apps/worker/src/outbox/outbox.repository.ts:69-88 | retries after the delay of the handler's own attempt number, or fails for good |
| OutboxWorker.PaymentValidationService.Validate | apps/worker/src/payments/payment-validation.service.ts:20-57 | validation reads the payment and its merchant as they stand and runs exactly one of the two transactions, chosen by the rules on the merchant's own status |
| Verdicts.HandlingHasVerdict | apps/worker/src/payments/payment-validation.service.ts:59-144 | the whole of a handler's work ends with the verdict that the rules, the limit, the account and the funds give on the tables as it found them: VALIDATED, charged and reserved, or VALIDATION_FAILED with the code of the first rule that is broken and no change of reservations, ledger or usage |
| Verdicts.InactiveIsRejected | apps/worker/src/payments/payment-validation.service.ts:98-103 | by that verdict a payment of a merchant that is not active ends VALIDATION_FAILED and moves no money, with MERCHANT_NOT_ACTIVE when no earlier rule is broken |
| OutboxWorker.WebhookDeliveryMaterializer.Materialize | apps/worker/src/webhooks/webhook-delivery-materializer.service.ts:33-87 | one delivery for each endpoint active now, existing ones skipped, none for a webhook test |
| OutboxWorker.OutboxHandler.Handle | apps/worker/src/outbox/outbox.handler.ts:28-62 | validation before materialisation; a throw in the first skips the second and changes nothing |
| OutboxWorker.ReserveTouches | apps/worker/src/payments/payment-lifecycle.repository.ts:470-653 | handling an event changes no other event's row, adds only new ones and takes no claim |
| OutboxPolling.OutboxPollingService.ProcessClaimedEvent | apps/worker/src/outbox/outbox-polling.service.ts:71-102 | the event is marked PROCESSED when its handler returned and FAILED or PENDING when it threw; a RECEIVED payment whose event was claimed has its verdict afterwards |
| OutboxPolling.OutboxPollingService.ProcessOnce | apps/worker/src/outbox/outbox-polling.service.ts:42-52 | a poll ends every claim older than the lease; it claims a full batch or every unlocked row that is due, recovered rows included, in queue order; every row it claimed has one attempt more, no live handler under that number and the status its handler's report leaves; other rows are only recovered; a reachable database stays reachable |
| OutboxPolling.PollDoes | apps/worker/src/outbox/outbox-polling.service.ts:42-52 | recovering, claiming and reporting one after the other amount to that, said of the rows and time columns before it and of the rows after it |
| OutboxPolling.ProcessingHasVerdict | apps/worker/src/outbox/outbox-polling.service.ts:71-102 | reporting on an event takes nothing back of the verdict that its handling gave |
| OutboxPolling.PollIsReachable | apps/worker/src/outbox/outbox-polling.service.ts:42-52 | a whole poll is a run of the system, so all that holds of every run holds after it |
| OutboxPolling.ProcessingLeavesOthers | apps/worker/src/outbox/outbox-polling.service.ts:49-51 | handling one claimed event leaves the handlers of the rest of the batch as they were |
| Database.Tables.PostedBalance | apps/worker/src/payments/payment-lifecycle.repository.ts:556-560 | the SQL sum over an account's entries with its sign table |
| Database.Tables.ActiveReservations | apps/worker/src/payments/payment-lifecycle.repository.ts:561-564 | the sum of an account's ACTIVE reservations |
| Database.Tables.WriteUsage | apps/worker/src/payments/payment-lifecycle.repository.ts:600-615 | creates or updates the usage row of the payment's merchant and of the one day, from midnight to midnight, in which it was created |
| LifecycleRepository.PaymentLifecycleRepository.TransitionFromReceived | apps/worker/src/payments/payment-lifecycle.repository.ts:86-132 | commits the verdict of a RECEIVED payment with its event, or the specified error and nothing |
| LifecycleRepository.PaymentLifecycleRepository.ReleaseReservationForPayment | apps/worker/src/payments/payment-lifecycle.repository.ts:134-170 | releases any reservation that is not released yet, with its entry, or rolls back |
| LifecycleRepository.PaymentLifecycleRepository.SettleReservationForPayment | apps/worker/src/payments/payment-lifecycle.repository.ts:172-231 | the statements of a settlement commit exactly what is specified; an error after the first write rolls back |
| LifecycleRepository.PaymentLifecycleRepository.SettleDebitPayment | apps/worker/src/payments/payment-lifecycle.repository.ts:233-297 | the debit arm, with its account check |
| LifecycleRepository.PaymentLifecycleRepository.ReturnSettlementForPayment | apps/worker/src/payments/payment-lifecycle.repository.ts:299-361 | the statements of a return commit exactly what is specified, or nothing |
| LifecycleRepository.PaymentLifecycleRepository.ReturnDebitPayment | apps/worker/src/payments/payment-lifecycle.repository.ts:363-431 | the debit arm, which checks the posted entry it reverses |
| LifecycleRepository.PaymentLifecycleRepository.Fund | apps/worker/src/payments/payment-lifecycle.repository.ts:511-598 | decides daily limit, account and available funds in that order, and reserves a credit that passes |
| LifecycleRepository.PaymentLifecycleRepository.ReserveDailyUsageAndTransition | apps/worker/src/payments/payment-lifecycle.repository.ts:470-653 | the whole admission commits with the completed event or not at all |
| LifecycleRepository.PaymentLifecycleRepository.CompleteOutbox | apps/worker/src/payments/payment-lifecycle.repository.ts:679-694 | completes only a claimed event |
| PaymentEngineService.Service.ReadAndCheck | apps/api/src/payments/payment-engine.service.ts:22-46 | the read and the checks on it let the transaction start for exactly the RECEIVED payments that meet the requirements, and otherwise report what the validation reports |
| PaymentEngineService.Service.WriteValidated | apps/api/src/payments/payment-engine.service.ts:47-67 | the transaction, on whatever the tables hold by then, commits the update by id with its event, or nothing |
| PaymentEngineService.Service.Validate | apps/api/src/payments/payment-engine.service.ts:22-68 | with nothing between the two halves the validation commits what is specified |
| PaymentEngine.AtOnce | apps/api/src/payments/payment-engine.service.ts:22-68 | the write on the state that was read is the atomic step; a read that does not pass changes nothing |
| StaleValidation.StaleWriteIsSafe | apps/api/src/payments/payment-engine.service.ts:47-67 | whatever happened since the read, the transaction leaves consistent tables if and only if the payment is not VALIDATION_FAILED by then; otherwise, and only then, it has both outcomes |
| StaleValidation.BothOutcomesAreReached | apps/api/src/payments/payment-engine.service.ts:22-67 | a run in which the API reads a payment that meets the requirements and the worker rejects it before the API's transaction |
| StaleRuns.StaleRunIsConsistent | apps/api/src/payments/payment-engine.service.ts:22-67 | in runs of all actors with the API's read and write as separate acts, every state satisfies the invariant if and only if no write meets a payment rejected since its read, and if and only if no payment ever has both outcomes |
| StaleRuns.ActStaysConsistent | apps/api/src/payments/payment-engine.service.ts:22-67 | the same for one act |
| StaleRuns.BothOutcomesInARun | apps/api/src/payments/payment-engine.service.ts:22-67 | such a run from the empty database ends with both outcomes |
| PaymentEngineService.Service.Reserve | apps/api/src/payments/payment-engine.service.ts:70-179 | so does its reservation, which charges the daily usage |
| PaymentEngineService.Service.Settle | apps/api/src/payments/payment-engine.service.ts:181-231 | so does its settlement, which checks the payment before writing |
| PaymentEngineService.Service.SettleDebitPayment | apps/api/src/payments/payment-engine.service.ts:233-302 | and its debit arm |
| PaymentEngineService.Service.ReturnSettlement | apps/api/src/payments/payment-engine.service.ts:304-349 | so does its return, which does not check the payment's status |
| PaymentEngineService.Service.ReturnDebitPayment | apps/api/src/payments/payment-engine.service.ts:351-424 | and its debit arm |
| PaymentsService.PaymentsRepository.CreateWithOutboxAndIdempotency | apps/api/src/payments/payments.repository.ts:60-83 | payment, event and idempotency record are inserted together or not at all |
| PaymentsService.Service.Create | apps/api/src/payments/payments.service.ts:38-91 | a creation that succeeds stores the request column by column, currency upper-cased and USD by default, under the caller's own merchant code only; a foreign code is refused and changes nothing; a unique-key collision is answered from the record of the key, every other outcome from the transaction |
| Creation.CreationStores | apps/api/src/payments/payment.mapper.ts:10-29 | after a successful creation each column of the new payment is the request's field, the key is merchant and trimmed client key, the status RECEIVED, and no other payment has changed |
| Creation.CreationRefuses | apps/api/src/payments/dto/create-payment.dto.ts:14-62 | the creation is a bad request exactly for an empty key or a field outside its bounds, and not found exactly when otherwise the merchant code is not the caller's own |
| Text.TrimTakesSpace | apps/api/src/payments/payments.service.ts:43 | what is trimmed off a client key is white space at its two ends, all of it |
| Creation.FingerprintsCompareRequests | apps/api/src/payments/payment-fingerprint.util.ts:4-23 | two requests of one merchant have one fingerprint if and only if they agree in direction, amount, external reference, description, receiver name, account reference, routing number and, up to case and with its default, currency |
| PaymentsService.Service.HandleIdempotencyConflict | apps/api/src/payments/payments.service.ts:239-267 | same fingerprint: the recorded payment; another: a conflict; no record: an internal error |
| Idempotency.RepliesAgree | apps/api/src/payments/payments.service.ts:67-91 | under any interleaving all successful replies for a merchant and trimmed key name one payment, at most one created it, and the calls answered with a conflict are exactly those whose request differs from it in some field |
| Idempotency.RepliesNameTheRequest | apps/api/src/payments/payments.service.ts:239-267 | a successful reply names a payment whose columns are those of the request that is answered |
| Idempotency.InternalErrorIsUnreachable | apps/api/src/payments/payments.service.ts:248-252 | nobody is ever told that the payment could not be read |
| Idempotency.OnePaymentPerKey | apps/api/src/payments/payments.repository.ts:64-82 | a key has at most one payment and one record, and that payment its PAYMENT_RECEIVED event |
| Idempotency.EveryApiRunKeepsInv | apps/api/src/payments/payments.service.ts:38-91 | every interleaving of attempts, reads and other actors' steps keeps the clients' knowledge true |
| Idempotency.TakenKeysHaveRecords | apps/api/src/payments/payments.repository.ts:85-96 | a call that lost the race always finds the record of its key |
| Keys.EventKeysAreDistinct | apps/api/prisma/payment-lifecycle-event.factory.ts:20-22 | printed event keys are equal exactly when payment and type, or endpoint and time, are |
| Keys.EntryKeysAreDistinct | apps/worker/src/payments/payment-lifecycle.repository.ts:160-588 | printed ledger keys are equal exactly when kind and subject are |
| ExportAll.EverythingIsExported | apps/worker/src/ach/nacha-file-generator.service.ts:31-38 | from any reachable state generateAll exports every VALIDATED payment without a file in exactly one file of its own merchant, one file for each merchant, with metadata adding up to these payments; none is left |
| ExportAll.GenerateShrinks | apps/worker/src/ach/nacha-file-generator.service.ts:144-157 | each file takes payments off the eligible set, so generateAll terminates |
| ExportAll.FileTotals | apps/worker/src/ach/nacha-file-generator.service.ts:74-85 | a file's counts and totals are those of its set of payments, whatever their order |
| ExportAll.GenerateAllAddsUp | apps/worker/src/ach/nacha-file-generator.service.ts:132-143 | entry counts and totals of the new files sum to those of the payments eligible at the start |
| NachaFileGenerator.Generator.Generate | apps/worker/src/ach/nacha-file-generator.service.ts:40-173 | the statements of one export commit exactly the specified file, payments and events, or nothing |
| NachaFileGenerator.Generator.GenerateAll | apps/worker/src/ach/nacha-file-generator.service.ts:31-38 | the loop ends with no VALIDATED payment left without a file and counts its files |
| NachaFileGenerator.Ascending | apps/worker/src/ach/nacha-file-generator.service.ts:72 | the ordered query by id |
| Text.LessIsFirstDifference | apps/worker/src/ach/nacha-file-generator.service.ts:72 | ids ascend by the character at their first difference, a prefix before what it begins |
| NachaFileGenerator.RenderFile | apps/worker/src/ach/nacha-file-generator.service.ts:74-143 | text and metadata of a merchant's file, or an error for a routing number that is not numeric; FilePrintsPayments says what the text shows |
| NachaFileGenerator.NachaFilesService.Download | apps/api/src/nacha-files/nacha-files.service.ts:169-188 | renders the file again within the caller's scope, or reports what is missing; FilePrintsPayments says what the text shows |
| PrintedFiles.FilePrintsPayments | apps/worker/src/ach/nacha-file-generator.service.ts:74-130 | the stored and downloaded text of a file, split at its line breaks, has all lines 94 wide if and only if nothing it shows contains a break; then it shows, column by column, the file's date, in each batch header and control the merchant's own name and code, and for each exported payment, debits first and by ascending id, one entry with its direction, routing prefix, check digit, account reference, amount, receiver name and number; no other line is an entry |
| PrintedFiles.StoredTotalsAreShown | apps/worker/src/ach/nacha-file-generator.service.ts:123-143 | the count and totals stored about a file are those of the payments exported with it, and its file control shows them and the stored entry hash |
| NachaRenderer.RenderNacha | apps/api/src/nacha-files/nacha-files.service.ts:264-327 | the loops that grow, fill and patch the line list give exactly the specified text |
| GeneratedText.GenerateText | apps/worker/src/ach/nacha-file-generator.service.ts:74-130 | the worker's own templates, sums and loops give the same text and totals, so what is hashed and what the API renders are one text |
| NachaRenderer.CloseFile | apps/api/src/nacha-files/nacha-files.service.ts:320-325 | counting the '5' records, filling the block and patching the first '9' record completes the file |
| NachaRenderer.FivesInBody | apps/api/src/nacha-files/nacha-files.service.ts:319 | counting lines that start with '5' counts the batches |
| NachaRecords.LinesFit | apps/worker/src/ach/nacha-file-generator.service.ts:130 | for any payments every line is 81 to 94 wide before the last pass, which only pads it to 94 |
| NachaRecords.BlocksAreFull | apps/worker/src/ach/nacha-file-generator.service.ts:123-129 | the lines are the least multiple of ten holding all records, the first '9' line is the file control and never a filler, and it names lines / 10 blocks |
| NachaReading.CentsReadBack | apps/worker/src/ach/nacha-file-generator.service.ts:12-16 | cents(v) reads back as v modulo 10^10 for every v >= 0 |
| NachaReading.FileAddsUp | apps/worker/src/ach/nacha-file-generator.service.ts:74-130 | read back column by column, entry lines, batch controls and file control agree in count, hash and totals modulo their widths, and exactly when the totals fit |
| NachaText.TextSplitsBack | apps/worker/src/ach/nacha-file-generator.service.ts:130 | splitting the hashed and downloaded text at its line breaks gives back the padded records, equally lines that are all 94 wide, if and only if no kept part of a receiver's name, account reference or check digit, or of a batch's company name or code, contains a line break |
| NachaText.TextAddsUp | apps/worker/src/ach/nacha-file-generator.service.ts:74-130 | the lines split from a clean text come in full blocks, are 94 wide and add up as the records do |
| NachaText.BreakTearsAnEntry | apps/worker/src/ach/nacha-file-generator.service.ts:103-107 | a receiver named with a line break: its file has a line that is not 94 wide |
| NachaText.BreakIsDownloaded | apps/worker/src/ach/nacha-file-generator.service.ts:54-157 | a request for such a receiver runs through creation, validation and export: the stored and downloaded text has a line that is not 94 wide |
| NachaReading.EntryNamesReceiver | apps/worker/src/ach/nacha-file-generator.service.ts:103-107 | the columns in which an entry line names account and receiver and carries its number |
| NachaReading.HeaderNamesCompany | apps/worker/src/ach/nacha-file-generator.service.ts:99-102 | the columns in which a batch names its company |
| NachaReading.EntriesReadBack | apps/worker/src/ach/nacha-file-generator.service.ts:103-107 | the entry lines carry the payments' count, routing sum and amounts |
| NachaReading.ControlsReadBack | apps/worker/src/ach/nacha-file-generator.service.ts:108-121 | the batch controls claim their groups' count, hash and totals |
| RateLimit.PaymentRateLimitService.Consume | apps/api/src/rate-limit/payment-rate-limit.service.ts:25-54 | the expiring counter answers exactly whether the merchant made at most maxRequests calls in this window, and the wait is the rounded time until the counter that the window's first call started expires |
| RateLimit.AllowedPerWindow | apps/api/src/rate-limit/payment-rate-limit.service.ts:34-48 | exactly the first maxRequests calls of a merchant and window get through |
| RateLimit.WindowsAreIntervals | apps/api/src/rate-limit/payment-rate-limit.service.ts:34-35 | two instants have one window if and only if they lie in the same of the intervals of windowSeconds * 1000 ms into which the clock is cut |
| RateLimit.AllowedPerSpan | apps/api/src/rate-limit/payment-rate-limit.service.ts:34-48 | at most 2 * maxRequests get through in any span of windowSeconds |
| RateLimit.CounterOutlivesWindow | apps/api/src/rate-limit/payment-rate-limit.service.ts:36-39 | a counter never expires inside its own window |
| RateLimit.OthersDoNotCount | apps/api/src/rate-limit/payment-rate-limit.service.ts:40-43 | only a merchant's own calls count for it |
| RateLimit.RetryReachesLaterWindow | apps/api/src/rate-limit/payment-rate-limit.service.ts:36-52 | waiting the returned time reaches a later window if and only if the call's millisecond is at most 500 above that of the counter's first call, or the window is in its last second |
| RateLimit.RetryMayFallShort | apps/api/src/rate-limit/payment-rate-limit.service.ts:34-53 | the default configuration after 100 calls at the start of a window: the call 0.6 s later is denied and told 59 s, and a call after just that wait is denied again |
| RateLimit.RetryOnWholeSeconds | apps/api/src/rate-limit/payment-rate-limit.service.ts:36-52 | on a clock of whole seconds it always does |
| Simulator.PercentIsExact | apps/api/src/admin/admin-simulator.service.ts:490-492 | percent(p, .) selects exactly p of any hundred consecutive indices |
| Simulator.PercentOfHundreds | apps/api/src/admin/admin-simulator.service.ts:490-492 | and k * p of any 100 * k |
| Simulator.AmountsAreInRange | apps/api/src/admin/admin-simulator.service.ts:369-390 | after the checks every planned amount exists, within limits for a success and just above the limit, still creatable, for a failure |
| Simulator.AmountsCycle | apps/api/src/admin/admin-simulator.service.ts:375-381 | successive indices reach every amount of the range |
| Simulator.ValidateAmountRanges | apps/api/src/admin/admin-simulator.service.ts:430-453 | accepts exactly the plans that leave an amount for every merchant |
| Simulator.PlanDecidesTheLimitRule | apps/worker/src/payments/payment-validation.service.ts:122-127 | a payment planned to fail never passes validation, and the amount of one planned to succeed is not what fails it |
| Simulator.AcceptedThrows | apps/api/src/admin/admin-simulator.service.ts:347-391 | after the checks a transaction throws if and only if its merchant has no direction enabled or creating the payment throws; choosing the amount never does |
| Simulator.SimulatorRun.Execute | apps/api/src/admin/admin-simulator.service.ts:258-312 | every transaction is counted once, as failed exactly when planned to fail or when its direction, its amount or its creation throws |
| Simulator.RunFailsAsPlanned | apps/api/src/admin/admin-simulator.service.ts:258-312 | a checked run of 100 * k transactions counts k * p failures if and only if every transaction planned to succeed finds a direction and gets created |
| LedgerListing.RunningBalances | apps/api/src/ledger/ledger.service.ts:180-186 | the single pass gives each row the balance of its own account so far |
| LedgerListing.ListingEndsOnPosted | apps/api/src/ledger/ledger.service.ts:180-186 | on an unfiltered listing, in any order, every account ends on its posted balance |
| LedgerListing.FilteredListing | apps/api/src/ledger/ledger.service.ts:180-186 | on a listing that a filter has thinned out, an account ends on its posted balance less the impacts left out, so on the posted balance if and only if those cancel |
| LedgerListing.NetPositionIsPosted | apps/api/src/ledger/ledger.service.ts:244-271 | the net position is the sum of the accounts' posted balances |
| LedgerListing.NetPositionFollowsStatuses | apps/api/src/ledger/ledger.service.ts:244-271 | in every reachable state that is initial credits minus settled debits plus returned credits, summed over the accounts |
| LedgerListing.SortingKeepsTheSummary | apps/api/src/ledger/ledger.service.ts:238-251 | the summary taken after sorting is that of the unsorted rows |
| LedgerListing.EntryImpact | apps/api/src/ledger/ledger.service.ts:277-281 | the listing's sign table is the balance query's |
| LedgerCsv.CsvReadsBack | apps/web/lib/ledger.ts:163-170 | a quoted-field reader recovers arbitrary cells, with quotes, commas and line breaks |
| LedgerCsv.LedgerTextReadsBack | apps/web/lib/ledger.ts:140-166 | header and rows of the export are recovered exactly |
| LedgerCsv.ColumnsAreNamed | apps/web/lib/ledger.ts:140-166 | read back, each value of a row stands below its own name in the header |
| LedgerCsv.LedgerTextIsUnique | apps/web/lib/ledger.ts:140-166 | equal exports have equal rows |

## Left out

* Bank settlement events, the webhook delivery processor, merchant and key administration, authentication, listings
  with filters, the dashboard and all user interface code other than the ledger export.
* Statuses that no code writes (PENDING, PROCESSING, FAILED, CANCELLED, UNKNOWN), time stamps other than a payment's
  creation time and the outbox's time columns, and free-text messages.
* SQL isolation and advisory locks: one transaction is one step, and a unique key is an insert that
  fails and rolls back.
* SHA-256: a fingerprint is represented by the canonical request and a file's digest by its text, both being taken as
  injective. File names and their hash part are not modelled; files are numbered by position.
* Field checks of request objects other than the creation of a payment are taken as given.
* A merchant's limits and permissions never change after onboarding; its status does, and a handler may have read an
  older one.
* Ids are compared by code unit where the database compares them by its collation.
* Timers, shutdown, heartbeats, logging and configuration parsing; simulator pause, resume, stop and latency.
- OutboxRepository.Repository.ClaimPending: the rows that other transactions have locked are a parameter; a completed row keeps its old claim time, which nothing reads.
- OutboxPolling.OutboxPollingService.ProcessOnce: no other actor acts during the poll; interleavings are covered by the runs of the system, of which a poll is one. The stage a handler has reached is bookkeeping of the model.
- Theorems.OneValidationOutcome: the API's validation is one step, although the code reads before its transaction; StaleRuns has the runs in which it is two.
- NachaRenderer.RenderNacha: texts other than digits that BigInt accepts are treated as errors.
- NachaReading.FileAddsUp: amounts are not negative.
- PrintedFiles.FilePrintsPayments: for dates whose month and day have at most two digits; the date's columns are stated for years from 10 on.
- RateLimit.PaymentRateLimitService.Consume: the service and Redis share one clock that never goes back, and the configuration is two positive integers.
- Idempotency.RepliesAgree: payment ids are new UUIDs, and the read after a collision is taken once although the code may repeat it.
- PaymentsService.Service.Create: upper-casing of currencies is modelled for ASCII letters.
- Simulator.SimulatorRun.Execute: which creations throw is a parameter, a duplicate of one included.
- LedgerListing.ListingEndsOnPosted: for listings without filters other than the merchant's scope; FilteredListing covers the others.
