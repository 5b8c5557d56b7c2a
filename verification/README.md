# KUSANYA: a verified model of its money core

KUSANYA issues bills and control numbers for institutions, takes payments
through external providers, keeps a ledger and a revenue log, settles batches
and reconciles with the providers. This project models those services, together
with the audit hash chain, the request limiter, the login lockout and webhook
retries, and proves what holds over all their runs.

## How it is laid out

- `Sums`, `Sweeps`, `Interleavings`, `Caches`: aggregates over tables, a loop over a table that stops at the
  first error, moves of concurrent requests in any order, counters that a cache forgets.
- `Tables`: the rows, the status tables and the store that holds everything. Amounts are integer cents.
- `Services`: what each operation does to the store, as a function. A request that raises changes nothing.
- `Desk`: the same services as a class that updates its tables in place, proved to do exactly that. The table
  lists its requests and the steps that are functions of their own in the source.
- `Invariants`, `Preservation`, `MoneyMoves`, `Runs`: what every reachable store satisfies, and why each request keeps it.
- `PaymentRequests`, `BillRequests`, `SettlementRequests`: what each request does, written out by column, status and
  amount, and no function that `Services` is made of.
- `MoneyTheorems`, `History`, `Idempotency`, `Settlement`, `Reconciliation`, `Overpayment`, `EarlyCallbacks`: what this means
  over whole runs.
- `Delivery`: at-least-once callback delivery refines exactly-once delivery.
- `MockProvider`, `LostResponses`: the sandbox provider, and why lost answers do not matter after one reconciliation.
- `NumberRace`, `NumberRaceTheorems`, `NumberRaceService`, `ChargeRace`, `ChargeRaceTheorems`, `CallbackRace`, `SettlementRace`: any number
  of interleaved requests, as transition systems.
- `AuditChain`, `AuditParts`, `RateLimit`, `Lockout`, `Webhooks`: the remaining stateful components.

The provider is an adversary: replies, callbacks and times are arbitrary inputs.
`Delivery` asks of it that a reference belongs to one payment and that an event
id, which is not blank, always carries the same content. `LostResponses` uses
the sandbox provider with new, distinct references.

## What the code does that its documents do not say

- The reconciliation specification (step 1 of what a run does) has a run resolve
  every UNKNOWN payment or open an exception for it. UNKNOWN may not move to PENDING, so one honest
  PENDING answer raises and takes the whole run with it, as does a query that
  gets no answer. `Reconciliation.ReconcileDecides` gives the exact condition and
  `Reconciliation.PendingAnswerSinksTheRun` a run of requests that ends there.
- ADR-010 (`ARCHITECTURE_DECISIONS.md:259-261`) wants later idempotent creations to
  recover from a lost race. `initiate_payment` does not: the loser is rolled back,
  uncharged, exactly when the key is taken (`ChargeRaceTheorems.LosingInitiationRaises`), and
  `ChargeRaceTheorems.LoserIsRolledBack` plays such a race. A control-number request
  does recover (`NumberRaceTheorems.LoserGetsTheWinner`).
- One callback event is to lead to one financial event (`apps/payments/models.py:150-160`).
  An event that comes before its payment has learnt the reference leads to none: it
  is filed as unmatched and every redelivery is a duplicate
  (`EarlyCallbacks.EarlyDeliveryIsLost`, and `EarlyCallbacks.SuccessIsNeverSeen` for a run). It
  leads to one exactly when the reference is known at the first delivery and the
  move is legal (`EarlyCallbacks.TimelyDeliveryCounts`).
- A delivery whose transition is illegal is rolled back together with its
  callback row, so a repeat is tried, and refused, again.
- A refund or reversal takes no allocation back: the bill keeps its amount paid
  and its status. A cancelled bill still receives allocations, and the
  outstanding report leaves it out. A bill with a total of 0 or, since a
  quantity has no lower bound, below 0 stays ACTIVE until something is paid on it.
- The control number specification calls a one-time number unusable once its bill
  is paid, expired or cancelled. It never becomes so: an initiation is refused for
  no number that exists (`Overpayment.RefusedIffUnknown`), and the bill takes the
  money whatever its status (`Overpayment.EveryNumberTakesPayments`). In
  `Overpayment.PaidBillIsPaidAgain` a bill is paid in full twice, in
  `Overpayment.CancelledBillIsPaid` a cancelled one is paid through its cancelled number.
- Verifying part of an intact audit log reports it as broken, unless the part is
  its beginning (`AuditParts.PartVerifiesIffEarliest`).
- Removing the last audit record goes unnoticed (`AuditChain.RemovedRecordIsMissed`),
  and a webhook allowed eight attempts or more can be left RETRYING for good
  (`Webhooks.RetriesEndIffQuotaFits`).

## Model

| member | source | states |
|---|---|---|
| `Runs.OutcomeKeepsInv` | apps/payments/services.py:234-266 | a provider outcome keeps all books straight and is refused exactly when the payment's status neither is nor may move to what it calls for |
| `Runs.QueryKeepsInv` | apps/payments/services.py:110-129 | a query keeps all books and raises exactly without an answer or on an illegal move |
| `Runs.ReplyIsTaken` | apps/payments/services.py:74-107 | a new payment takes every answer, a timeout and a provider error without raising, and the books stay straight |
| `Runs.InitiationNeverRaises` | apps/payments/services.py:61-107 | once the provider has been called, an initiation never raises: INITIATED accepts every outcome, a timeout and a refusal |
| `Runs.CallbackKeepsInv` | apps/payments/services.py:132-193 | a callback, forged, malformed, repeated, unmatched or new, keeps all books |
| `Runs.NumberKeepsInv` | apps/control_numbers/services.py:48-136 | a control-number request keeps all books: a created number comes with one fee entry and the one CREATED event that points at it, a reused one with a zero-fee event alone |
| `Runs.BillKeepsInv` | apps/billing/services.py:16-94 | issuing a bill keeps all books and answers with the bill under the reference, new and last if it reports created, on file otherwise |
| `Runs.ReconcileKeepsInv` | apps/reconciliation/services.py:30-100 | a reconciliation run keeps all books |
| `Runs.StepKeepsInv` | apps/payments/services.py:38-319 | every request of the money core, completed or rolled back, keeps every invariant: payment books, tenant totals, batches, bills, receipts, keys and the callback log |
| `MoneyMoves.SucceedKeepsInv` | apps/payments/services.py:248-256 | a first success writes exactly its three ledger rows, event, allocation and receipt, moves its bill to the status its amounts call for, and keeps every invariant |
| `MoneyMoves.SuccessEventFound` | apps/revenue/services.py:122-127 | the clawback lookup finds the one PAYMENT_SUCCESSFUL event of a successful payment, and that event points at the fee entry |
| `MoneyMoves.TakeBackKeepsInv` | apps/revenue/services.py:114-158 | a refund or reversal under either policy adds one compensating event and, under clawback, one linked negative entry, and keeps every invariant |
| `MoneyMoves.ClaimedFeesAreFlat` | apps/settlement/services.py:41-49 | the fee aggregate of a batch is 50.00 for each claimed payment, because each was charged exactly once |
| `MoneyMoves.BatchKeepsInv` | apps/settlement/services.py:26-71 | settling keeps every invariant: gross, fee and net of all batches, old and new, and the entitlement balance |
| `Preservation.QuietKeepsInv` | apps/payments/models.py:113-124 | moves among statuses that were never successful, and learning a reference, touch no money |
| `Preservation.CancelBillKeepsInv` | apps/billing/services.py:97-103 | cancelling a bill keeps every invariant |
| `MoneyTheorems.EveryRunIsSound` | apps/payments/services.py:38-319 | the invariant holds after every run of requests from the empty platform |
| `MoneyTheorems.TwoBooksAlwaysAgree` | apps/revenue/services.py:26-172 | in every reachable state a tenant's PLATFORM ledger sum equals its revenue sum, which is 50.00 per control number and per ever-successful payment minus 50.00 per clawed-back refund or reversal |
| `MoneyTheorems.EntitlementIsConserved` | apps/payments/services.py:269-297 | in every reachable state the entitlement sum is all batch gross plus the ever-successful payments in no batch, and equals what was received |
| `MoneyTheorems.ReceiptsCarryRunningBalance` | apps/receipts/services.py:31-44 | a bill's receipts in issue order carry its running balance, from the total down to what it still owes |
| `MoneyTheorems.ExactlyOnceMoneyEffects` | apps/payments/services.py:234-319 | PAYMENT_RECEIVED, INSTITUTION_ENTITLEMENT, PLATFORM_PAYMENT_FEE, PAYMENT_SUCCESSFUL event, receipt and (if bill-bound) allocation exist exactly once if the payment ever succeeded, and not at all otherwise |
| `MoneyTheorems.EachPaymentNetsItsFee` | apps/revenue/services.py:63-158 | the platform nets 50.00 from a successful or retained payment and 0 from any other |
| `MoneyTheorems.SettledForGood` | apps/settlement/services.py:21-71 | whatever requests follow, a settled payment stays in its batch, and the batch's gross, fee and net stay those of the payments pointing at it |
| `MoneyTheorems.StatusMeansAmount` | apps/payments/services.py:300-319 | a bill that is not cancelled is ACTIVE iff nothing is paid, PARTIALLY_PAID iff 0 < paid < total, PAID iff paid > 0 and paid >= total |
| `MoneyTheorems.FilteredOutBillsOweNothing` | apps/reports/views.py:166-172 | a bill that the outstanding report's status filter leaves out owes nothing, unless it was cancelled |
| `MoneyTheorems.OutstandingReport` | apps/reports/views.py:166-172 | the filtered report total is what all bills that were not cancelled owe |
| `History.RefusalIsForever` | apps/payments/models.py:34-43 | a transition once illegal for a payment stays illegal |
| `History.RunEvolves` | apps/payments/models.py:113-124 | over any run, ledger, events, allocations, receipts and callbacks only grow; a payment keeps its terms, its learnt reference and its batch, and its status only moves forward |
| `History.OutcomeIsSteady` | apps/payments/services.py:234-319 | an outcome cancels and un-cancels no bill, touches no number and no batch, and claws nothing back |
| `Idempotency.RunKeepsUnique` | apps/payments/models.py:96-102 | over any run from a store that has it: one payment per tenant and key, one number per bill, one active number per account, distinct values, bill numbers and references |
| `Idempotency.EveryRunIsUnique` | apps/payments/models.py:96-102 | all of that holds after every run of requests from the empty platform |
| `Idempotency.RetryFindsThePayment` | apps/payments/services.py:50-59 | however many requests lie between, an initiation retried with its key returns the first payment and changes nothing |
| `Idempotency.RetryFindsTheNumber` | apps/control_numbers/services.py:50-56 | a later request returns the bill's number for good, and the account's while it is active, and records one zero-fee REUSED event |
| `Idempotency.RetiredNumberIsNotReused` | apps/control_numbers/services.py:98-106 | an account's number once cancelled or expired is never returned again, whatever follows |
| `Idempotency.ExpiringIsComplete` | apps/control_numbers/services.py:152-163 | expiring leaves no overdue number active, touches no other, and a second time does nothing |
| `Idempotency.RetryFindsTheBill` | apps/billing/services.py:34-39 | a bill retried under its external reference is returned as it is |
| `Delivery.RepeatChangesNothing` | apps/payments/services.py:158-181 | a repeat of a delivery that is on file, or that was and stays illegal, changes nothing but the log of duplicates |
| `Delivery.DeliveryIsDealt` | apps/payments/services.py:150-193 | after its first delivery an event id is on file, or the delivery was refused for a payment that will refuse it forever |
| `Delivery.StepAlike` | apps/payments/services.py:132-193 | stores that differ only in logged duplicates stay so under every request |
| `Delivery.AtLeastOnceRefinesExactlyOnce` | apps/payments/services.py:132-193 | for any run with an honest provider, dropping every repeat delivery leaves payments, bills, numbers, allocations, receipts, ledger, batches and revenue sums the same |
| `PaymentRequests.OutcomeLandsByTable` | apps/payments/services.py:234-266 | for each of the eight statuses and four outcomes: the status the payment lands in, or a refusal, and every row that is written, all by name |
| `PaymentRequests.InitiationOpensOne` | apps/payments/services.py:38-107 | an initiation returns the payment under a taken key, or opens exactly the requested one in the status its reply calls for; it raises only for an unknown number |
| `PaymentRequests.QueryLandsByTable` | apps/payments/services.py:110-129 | a query raises without a payment, an answer or a legal move; otherwise the payment learns a missing reference and lands by the table |
| `PaymentRequests.RepeatIsLogged` | apps/payments/services.py:158-181 | a repeat of a filed event adds a DUPLICATE callback row under a blank id and, if a payment was matched, one zero-fee event on it |
| `PaymentRequests.ForgedAndMalformed` | apps/payments/services.py:132-149 | a delivery with a bad signature is logged under a blank id without a payment; one that cannot be parsed raises |
| `PaymentRequests.UnmatchedIsFiled` | apps/payments/services.py:150-187 | a new event whose reference no payment carries is filed as unmatched, and nothing else changes |
| `PaymentRequests.MatchedLandsByTable` | apps/payments/services.py:183-193 | a new event lands on the newest payment with its reference by the table and is filed with it, or raises when the table refuses |
| `PaymentRequests.RefundedIffConfirmed` | apps/payments/services.py:196-212 | a refund raises iff there is no such SUCCESSFUL payment or no answer; otherwise the payment becomes REFUNDED, with its event and, under clawback, its linked -50.00 entry, iff the provider confirms, and nothing changes on any other answer |
| `PaymentRequests.ReversedIffConfirmed` | apps/payments/services.py:215-231 | the same for a reversal and REVERSED |
| `PaymentRequests.LastPolicyIsInForce` | apps/tenants/models.py:69-71 | after any run a tenant's policy is the one it set last, or clawback |
| `PaymentRequests.TakingBackFollowsTheLastPolicy` | apps/revenue/services.py:114-158 | after any run, a confirmed refund or reversal records the policy set last, or clawback, and takes 50.00 back exactly under clawback |
| `BillRequests.BillIsIssued` | apps/billing/services.py:34-94 | a bill on file is left as it is; otherwise an ACTIVE one is issued for the tenant under the reference, with the first free of three generated numbers; it raises iff all three are taken |
| `BillRequests.BillIsForItsLines` | apps/billing/models.py:127-131 | the total of a new bill is 0 without lines and grows by x with one more line of x |
| `BillRequests.BillIsCancelled` | apps/billing/services.py:97-103 | cancelling raises iff the bill is not DRAFT, ACTIVE or PARTIALLY_PAID, and changes the status alone |
| `BillRequests.ServingNumberAnswers` | apps/control_numbers/services.py:50-56 | the number that serves a bill or, while active, an account is the answer, and one zero-fee REUSED event is all that is added |
| `BillRequests.NewNumberIsCharged` | apps/control_numbers/services.py:58-91 | without one, the request raises for an unknown bill or when five generated values are taken; else it adds an active number with the first free value, its 50.00 fee entry and the linked CREATED event |
| `BillRequests.NumberIsCancelled` | apps/control_numbers/services.py:139-149 | cancelling sets the status of that number, whatever it was, and nothing else |
| `BillRequests.DueNumbersExpire` | apps/control_numbers/services.py:152-163 | expiring marks exactly the numbers in scope that are active with an expiry strictly before now |
| `SettlementRequests.BatchTakesExactly` | apps/settlement/services.py:28-69 | a payment joins the new batch iff it is the tenant's and the provider's, SUCCESSFUL, in no batch, and completed in [start, end); every other payment is unchanged |
| `SettlementRequests.BatchIsRecorded` | apps/settlement/services.py:38-69 | the new row has the batch's tenant, provider and period, its payments' amounts gross, 50.00 for each as fee, and the rest net; nothing else is written |
| `SettlementRequests.BatchIsCompleted` | apps/settlement/services.py:88-98 | completing sets the batch's external reference and nothing else |
| `SettlementRequests.OnlySettlingClaims` | apps/settlement/services.py:28-69 | no request but a settlement of its tenant and provider puts a payment into a batch, and only while it is SUCCESSFUL |
| `SettlementRequests.TakenBackIsNeverSettled` | apps/settlement/services.py:28-37 | a payment refunded or reversed before it was settled is never settled, whatever requests follow |
| `Settlement.SplitClaimsOnce` | apps/settlement/services.py:30-71 | consecutive windows claim exactly the tenant's and provider's SUCCESSFUL unsettled payments that completed in the whole period, each in the batch of the window it completed in |
| `Settlement.SplittingAPeriod` | apps/settlement/services.py:27-71 | batches over consecutive windows claim what one batch over the whole period claims, and gross, fees and net add up to that batch's |
| `Reconciliation.ReconcileDecides` | apps/reconciliation/services.py:30-100 | a run raises as a whole iff an UNKNOWN payment gets no answer or PENDING, or a settled one gets no answer; otherwise it leaves exactly the payments, exceptions and counters that the table of statuses and outcomes calls for |
| `Reconciliation.CountersAddUp` | apps/reconciliation/services.py:49-100 | total_checked = matched + exceptions + resolved |
| `Reconciliation.ExceptionsAreExact` | apps/reconciliation/services.py:49-98 | the run's exception rows are exactly the stuck UNKNOWN payments and the settled ones on which status and outcome differ by the table, as many as counted |
| `Reconciliation.FindingsWrittenOut` | apps/reconciliation/services.py:49-98 | a payment is reported STUCK_UNKNOWN iff it was UNKNOWN and the provider does not know how it ended, MISSING_AT_PROVIDER iff it is SUCCESSFUL or FAILED with a reference the provider does not know, STATUS_MISMATCH iff the provider reports another end or none yet |
| `Reconciliation.MatchesWrittenOut` | apps/reconciliation/services.py:63-98 | matched counts exactly the payments that both sides call SUCCESSFUL or both call FAILED |
| `Reconciliation.OnlyUnknownPaymentsChange` | apps/reconciliation/services.py:44-100 | a payment that was not one of the tenant's UNKNOWN ones comes out unchanged |
| `Reconciliation.SecondRunFindsNothingNew` | apps/reconciliation/services.py:44-100 | a second run against an unchanged provider resolves 0, repeats matched and exception counts, changes no payment and checks exactly resolved-many fewer |
| `Reconciliation.PendingAnswerSinksTheRun` | apps/reconciliation/services.py:44-60 | a concrete run of requests after which one honest PENDING answer makes the whole reconciliation raise and leaves the payment UNKNOWN |
| `LostResponses.ServingAddsOne` | apps/providers/mock.py:45-83 | an initiation at the sandbox provider adds one payment and one transaction, or, deduplicated, nothing |
| `LostResponses.AskingChangesOne` | apps/payments/services.py:110-129 | a manual query answered from the provider's transactions changes at most its own payment, by the answer, or is rolled back |
| `LostResponses.ServingKeepsLockstep` | apps/payments/services.py:83-101 | an initiation with its answer lost and the same one with it heard leave payments that are alike or UNKNOWN against SUCCESSFUL |
| `LostResponses.HandlingKeepsLockstep` | apps/payments/services.py:83-129 | initiations and manual queries keep the two worlds in that relation |
| `LostResponses.AnsweredMatches` | apps/providers/mock.py:85-139 | the provider agrees with every payment that has been answered |
| `LostResponses.RunRecovers` | apps/reconciliation/services.py:44-60 | one reconciliation run brings the lossy world to the same payments, bills, amounts paid, ledger and revenue totals |
| `LostResponses.LostResponsesDoNotMatter` | apps/reconciliation/services.py:30-60 | for every sequence of initiations and manual queries and every choice of timeouts, one run completes, opens no exception, and leaves the same money as with no timeouts |
| `MockProvider.MockAdapter.Initiate` | apps/providers/mock.py:45-83 | the transaction is filed whatever the hint; a timeout loses the answer only |
| `MockProvider.MockAdapter.Query` | apps/providers/mock.py:85-96 | answers by merchant reference, UNKNOWN if there is none |
| `MockProvider.MockAdapter.Reconcile` | apps/providers/mock.py:135-139 | answers by provider reference, UNKNOWN if there is none |
| `NumberRace.MoveKeepsInv` | apps/control_numbers/services.py:48-136 | every interleaved move, cancel and expire included, keeps uniqueness, one creator per number and one fee per number |
| `NumberRaceTheorems.NumbersAreUniqueAndChargedOnce` | apps/control_numbers/models.py:54-73 | for any number of interleaved clients: distinct values, one number per bill, one active number per account, exactly one fee and one CREATED event per number |
| `NumberRaceTheorems.SameBillSameNumber` | apps/control_numbers/services.py:78-89 | finished requests for one bill return the same number, and at most one reports created |
| `NumberRaceTheorems.RaisedRequestsLeaveNothing` | apps/control_numbers/services.py:58-91 | numbers and fees are exactly what finished requests report to have created; a request that raised left neither |
| `NumberRaceTheorems.AnswersAreTheWinner` | apps/control_numbers/services.py:78-89 | while a bill's number is committed, no request for that bill is about to commit another or to answer with another |
| `NumberRaceTheorems.LoserGetsTheWinner` | apps/control_numbers/services.py:78-89 | once a bill's number is committed, a competing request's reads find it, its inserts fail, and its commit answers with it, not created |
| `NumberRaceTheorems.MovesMakeProgress` | apps/control_numbers/services.py:58-91 | each move takes its own request strictly closer to its end: retries are bounded |
| `NumberRaceTheorems.BlockedOnlyByACommitter` | ARCHITECTURE_DECISIONS.md:242-248 | an insert that must wait waits for a request that is free to commit: no deadlock |
| `NumberRaceService.SameConstraints` | apps/control_numbers/models.py:54-73 | the race and the service have the same unique constraints on the same table |
| `NumberRaceService.RaceReadsTheTable` | apps/control_numbers/services.py:50-56 | on the same table the race's query finds exactly the number that the service finds |
| `NumberRaceService.RaceInsertsUnlessTaken` | apps/control_numbers/models.py:54-73 | the race's insert fails iff the value is taken or the owner is being served |
| `NumberRaceService.CreatingIsTheService` | apps/control_numbers/services.py:58-91 | a committed insert writes what the service writes: the number, one fee, one CREATED event |
| `NumberRaceService.ReuseIsTheService` | apps/control_numbers/services.py:50-56 | a request that finds its number and commits ends with the service's answer and its one REUSED event |
| `NumberRaceService.CancellingIsTheService` | apps/control_numbers/services.py:139-149 | a cancellation amid the race is the service's update of the table |
| `NumberRaceService.ExpiringIsTheService` | apps/control_numbers/services.py:152-163 | an expiry amid the race is the service's update of the table |
| `ChargeRace.MoveKeepsInv` | apps/payments/services.py:61-107 | every interleaved move of concurrent initiations keeps charges and rows in step |
| `ChargeRaceTheorems.ChargedAtMostOnce` | apps/payments/models.py:96-102 | at most one charge per payment and per tenant and non-blank key, every committed payment charged, no charge without its payment |
| `ChargeRaceTheorems.ChargedRequestsCommit` | apps/payments/models.py:34-43 | a request that charged can commit whether the provider answers, refuses or is never heard of, and it commits its own payment |
| `ChargeRaceTheorems.ServiceLandsThere` | apps/payments/services.py:74-107 | the status that a charged request lands on is the one that the initiation service gives its new payment |
| `ChargeRaceTheorems.LoserIsRolledBack` | apps/payments/services.py:61-70 | a concrete interleaving of two requests with one key: the winner is charged and finishes, the loser is rolled back |
| `ChargeRaceTheorems.SameKeySamePayment` | apps/payments/services.py:53-59 | finished initiations with one key of one tenant return one payment |
| `ChargeRaceTheorems.LosingInitiationRaises` | apps/payments/services.py:61-70 | an insert is rolled back, uncharged, iff the key is taken by a committed payment |
| `CallbackRace.DeliveriesAreSerial` | apps/payments/services.py:150-181 | for any interleaving of deliveries of one event, the store is what the answered ones leave one after another |
| `CallbackRace.OneDeliveryTakesEffect` | apps/payments/models.py:178-184 | for any interleaving of deliveries of one event, the first answered one does all that any of them does, up to the log of duplicates |
| `SettlementRace.SettlingAlone` | apps/settlement/services.py:27-69 | a batch of the locked payments is the batch of a request that ran alone |
| `SettlementRace.NoPaymentIsClaimedTwice` | apps/settlement/services.py:27-69 | for any interleaving and any overlap of periods, the batches are those of the same requests one after another, and every batch's gross and fee are those of the payments pointing at it |
| `SettlementRace.ClaimedForGood` | apps/settlement/services.py:27-69 | a payment claimed in any interleaving keeps its batch, whatever moves follow |
| `SettlementRace.SomeoneCanGoOn` | apps/settlement/services.py:28-37 | payments are locked in one order, so no set of requests waits for each other |
| `EarlyCallbacks.EarlyDeliveryIsLost` | apps/payments/services.py:150-187 | an event first delivered before any payment carries its reference has no effect, then or ever, whatever is requested in between |
| `EarlyCallbacks.TimelyDeliveryCounts` | apps/payments/services.py:183-193 | with the reference known, a first delivery moves its payment to the outcome, or changes nothing exactly when the move is refused |
| `EarlyCallbacks.SuccessIsNeverSeen` | apps/payments/models.py:150-160 | a concrete run in which a success is delivered twice and the payment stays UNKNOWN with no receipt |
| `Overpayment.RefusedIffUnknown` | apps/payments/services.py:38-107 | an initiation is refused for a number that does not exist, and for no other |
| `Overpayment.EveryNumberTakesPayments` | apps/payments/services.py:300-306 | whatever the status of a one-time number and its bill, a successful payment is taken and allocated in full; a paid or cancelled bill stays as it is |
| `Overpayment.PaidBillIsPaidAgain` | apps/payments/services.py:300-319 | a concrete run of requests that pays one bill in full twice |
| `Overpayment.CancelledBillIsPaid` | apps/payments/services.py:300-319 | a concrete run of requests that pays a cancelled bill through its cancelled number |
| `AuditChain.AuditLog.Save` | apps/audit/models.py:128-141 | links to the record with the greatest (created_at, id) and hashes the columns that AlteredRecordIsFound protects, fills the actor label, refuses re-saving and repeated ids or hashes |
| `AuditChain.AuditLog.VerifyChain` | apps/audit/models.py:146-160 | the ascending walk over the queryset, or over all records if there is none or it is empty, returns the first record whose links or hash do not fit |
| `AuditChain.VerifiesIffInAppendOrder` | apps/audit/models.py:135-160 | after serial appends the chain verifies iff every append exceeded all earlier ones in (created_at, id) |
| `AuditChain.NoAppendRepairs` | apps/audit/models.py:135-160 | no later append repairs a chain broken that way |
| `AuditChain.LastHashBindsHistory` | apps/audit/models.py:98-160 | two verifying chains with the same last hash hold the same records in time order, column by column, but for ids, actors, addresses and user agents |
| `AuditChain.AlteredRecordIsFound` | apps/audit/models.py:146-160 | altering any column of a record but actor, address and user agent, its sort key and hashes kept, makes verification return that very record; altering those three leaves the chain intact |
| `AuditChain.RemovedRecordIsMissed` | apps/audit/models.py:146-160 | removing a record makes verification return its successor, and nothing if it was the last |
| `AuditParts.PartVerifiesIffEarliest` | apps/audit/models.py:146-160 | part of an intact log verifies iff it keeps the earliest records; any other selection is reported as broken |
| `AuditChain.ActorsNeverMatter` | apps/audit/models.py:98-126 | changing actors, addresses and user agents never changes the verdict |
| `RateLimit.RequestRateLimiter.Handle` | apps/core/ratelimit.py:54-81 | admits below the limit, for exempt paths, limit 0 and a failing cache; counts without extending the window; leaves other clients alone |
| `RateLimit.WindowBound` | apps/core/ratelimit.py:54-81 | any half-open interval one window long admits at most 2 * limit - 1 requests of one client |
| `RateLimit.BoundIsAttained` | apps/core/ratelimit.py:54-81 | for every limit some trace of requests is admitted that often |
| `RateLimit.IdleClientIsAdmitted` | apps/core/ratelimit.py:58-75 | a client idle for a full window is admitted |
| `Lockout.Throttle.IsLockedOut` | apps/accounts/throttle.py:23-24 | locked out iff the live count has reached 5 |
| `Lockout.Throttle.RecordFailure` | apps/accounts/throttle.py:27-31 | counts one more and makes the counter live for 15 minutes from now |
| `Lockout.Throttle.Reset` | apps/accounts/throttle.py:34-35 | forgets this counter and no other |
| `Lockout.Throttle.Post` | apps/accounts/views.py:36-60 | a locked-out attempt is rejected unseen, a valid one resets, an invalid one counts |
| `Lockout.LockoutBound` | apps/accounts/throttle.py:23-35 | any 15 minutes without a success evaluate at most 5 failed attempts |
| `Lockout.CounterStaysSmall` | apps/accounts/throttle.py:15-31 | the counter never exceeds 5 |
| `Lockout.LockedOutByFiveFailures` | apps/accounts/throttle.py:15-35 | an attempt is rejected only after five evaluated failures since the last success; one that passes was valid and starts the count anew |
| `Lockout.LockEndsOnTime` | apps/accounts/views.py:86-111 | however many attempts are rejected, the lock lasts exactly 15 minutes from the fifth failure |
| `Webhooks.WebhookTask.PerformDelivery` | apps/webhooks/tasks.py:25-65 | counts the attempt, records its time, the status code and the first 2000 characters of the body or error; delivered iff it is a 2xx |
| `Webhooks.WebhookTask.DeliverWebhook` | apps/webhooks/tasks.py:68-95 | delivers, gives up at max_attempts, or asks for another run after the backoff |
| `Webhooks.WebhookTask.RunToTheEnd` | apps/webhooks/tasks.py:68-95 | all runs the queue grants a delivery, and the delays between them |
| `Webhooks.ChainEnds` | apps/webhooks/tasks.py:68-95 | from any run on, a chain ends at its first success, or after its quota in DEAD_LETTER or, past seven, RETRYING |
| `Webhooks.RetriesEndIffQuotaFits` | apps/webhooks/tasks.py:68-95 | every chain ends DELIVERED or DEAD_LETTER within max(1, max_attempts) attempts iff max_attempts is at most 7 |
| `Webhooks.BackoffIsMonotoneAndCapped` | apps/webhooks/tasks.py:93-94 | delays never shrink and never exceed 300 s |
| `Webhooks.DefaultChainWaits` | apps/webhooks/tasks.py:93-95 | the default chain waits at most 310 s, exactly that when every attempt fails |
| `Desk.ServiceDesk.IssueBill` | apps/billing/services.py:16-94 | the store afterwards is that of the request whose bill, lines and refusals BillIsIssued and BillIsForItsLines state, rolled back on error |
| `Desk.ServiceDesk.CancelBill` | apps/billing/services.py:97-103 | cancels iff the transition is legal |
| `Desk.ServiceDesk.GetOrCreateNumber` | apps/control_numbers/services.py:48-136 | returns the serving number with a REUSED event, or creates one, or raises |
| `Desk.ServiceDesk.CancelNumber` | apps/control_numbers/services.py:139-149 | cancels exactly that number |
| `Desk.ServiceDesk.ExpireOverdue` | apps/control_numbers/services.py:152-163 | expires exactly the overdue active numbers of the tenant, and returns how many |
| `Desk.ServiceDesk.InitiatePayment` | apps/payments/services.py:38-107 | deduplicates by key, else inserts the row before the reply is taken; raises only for a number that does not exist |
| `Desk.ServiceDesk.QueryPayment` | apps/payments/services.py:110-129 | learns a missing reference and applies the outcome, rolled back on error |
| `Desk.ServiceDesk.ProcessCallback` | apps/payments/services.py:132-193 | files, recognises repeats, matches by reference and applies, rolled back on error |
| `Desk.ServiceDesk.TakeBack` | apps/payments/services.py:196-231 | the store and the error are those of the request that RefundedIffConfirmed and ReversedIffConfirmed state |
| `Desk.ServiceDesk.GenerateBatch` | apps/settlement/services.py:21-71 | creates the batch with its totals and claims exactly the payments that BatchTakesExactly states |
| `Desk.ServiceDesk.CompleteBatch` | apps/settlement/services.py:88-98 | completes the batch and changes none of its figures |
| `Desk.ServiceDesk.Reconcile` | apps/reconciliation/services.py:30-41 | both passes and the completed run row, or a full rollback |
| `Desk.ServiceDesk.PostEntry` | apps/ledger/services.py:10-34 | appends one ledger row and nothing else |
| `Desk.ServiceDesk.Compensate` | apps/revenue/services.py:114-158 | the compensating event and, under clawback, the linked negative entry |
| `Desk.ServiceDesk.TransitionTo` | apps/payments/models.py:113-124 | moves the payment iff the table of transitions allows it and stamps the completion time |
| `Desk.ServiceDesk.PostSettlementEntries` | apps/payments/services.py:269-297 | PAYMENT_RECEIVED and INSTITUTION_ENTITLEMENT for the full amount |
| `Desk.ServiceDesk.AllocateToBill` | apps/payments/services.py:300-319 | allocates the full amount to a bill-bound number's bill and moves an open bill by its new balance |
| `Desk.ServiceDesk.GenerateReceipt` | apps/receipts/services.py:11-48 | one receipt per successful payment with the balance at issue; an existing one is kept |
| `Desk.ServiceDesk.ApplyOutcome` | apps/payments/services.py:234-266 | the transition first, then its effects in order, or an error |
| `Desk.ServiceDesk.ResolveUnknownPayments` | apps/reconciliation/services.py:44-60 | the loop over UNKNOWN payments is the sweep of the specification, newest first |
| `Desk.ServiceDesk.CheckSettledPayments` | apps/reconciliation/services.py:63-100 | the loop over settled payments is the sweep whose findings FindingsWrittenOut and MatchesWrittenOut state |

## Left out

- HTTP views, forms, serializers, permissions, templates, notifications, e-mail, CSV export: no state that the properties speak of.
- Audit rows and webhook dispatch inside the money services: the chain and the retries are modelled on their own.
- Currency, encrypted fields, free-text columns and `Decimal` rounding: amounts are integer cents in one currency per tenant; line totals arrive computed.
- The amount of a partial refund: the code records it in the audit log only and compensates the fee alike.
- DISPUTED and EXPIRED bills and EXPIRED payments: the status tables list them, no service moves there.
- Row deletion, admin edits, `resolve_exception`, generation of batch references and merchant references: a row's identity is its index.
- Two different operations at once on one existing payment, or two on one audit chain, cache entry or webhook: the code takes no lock there, so these are serial here.
- Other requests between the moves of `CallbackRace` and `SettlementRace`: these run deliveries of one event, and batch requests, among themselves.
- Cancelling and expiring a number in the middle of another transaction: each is one committed move in `NumberRace`.
- Loss of the race for an external reference or a receipt: the recovery branches are those of `NumberRace` with one attempt, so `Desk` runs such requests one at a time.
- Failure to commit after the provider was charged, such as a crash: `ChargeRace` lets a request abort only before its charge or on a reply that the status table refuses.
- Signatures, hashes and random values: a signature is a boolean input, the hash a parameter, random values are inputs.
- The intermediate saves of a reconciliation run's counters: they are inside one transaction, so only the completed row is written.
- Idempotent creation of customers and accounts: a check and an insert without recovery, easier than the control-number case.
