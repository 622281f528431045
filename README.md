# Banking ledger API: money movement, invoices and the webhook outbox

This project models the payment engine of a banking-ledger HTTP API in
Dafny. Each service operation runs against one store, which holds:

- accounts, with a balance in minor units, a currency, an overdraft flag,
  an account number, an email and a transaction PIN;
- the transaction list, where every transaction carries a debit entry and
  a credit entry;
- invoices;
- the webhook outbox (webhook events).

The store is the class `Ledger.Store`. Its methods are the database writes
the services make: balance increment and decrement, row creation, and
rollback of an aborted unit of work. The pure value `Ledger.Ledger` is a
snapshot of that state.

Every operation is written twice:

- a function on the snapshot, which states the operation's contract;
- a method that performs the same steps as the code against the store and
  is proved to end in the state that function describes.

A database transaction (`$transaction`) is all-or-nothing. Every error
leaves the store exactly as it was.

Modules:

- `Base`: optional values, JavaScript truthiness of optional strings, and
  one error per kind of failure the services throw.
- `Money`: `Math.floor` and `Math.ceil` on reals, and the two directional
  conversions of an amount. A transfer or deposit divides by the rate and
  rounds up. A charge multiplies by the rate and rounds down.
- `Ledger`: the store, its index invariants, the balance movement shared
  by all payments, and the store primitives.
- `Exchange`: the 60-second rate cache against USD, its refresh with
  fallback to the old table, and the cross-rate lookup.
- `TransferLatest`: the current money-movement service. It covers the
  transfer with its idempotency lookup, the treasury deposit and the
  merchant charge.
- `TransferOlder`: the older compiled build. It has the same transfer, a
  deposit that does not record the amount column, and no charge.
- `TransferEarliest`: the first TypeScript transfer. It is same-currency
  only and honours `allowOverdraft`.
- `InvoiceOutbox`: the invoice service with the outbox:
  - PENDING becomes PAID, or FAILED without throwing;
  - a payment with a known key is replayed;
  - each outcome creates one webhook event.
- `InvoiceEarliest`: the first invoice service. Only PAID blocks a
  payment, and insufficient funds throws.
- `WebhookQueue`: the retry policy of the delivery queue, the worker's
  bookkeeping on each attempt, the dead-letter handler, and the life of a
  job over successive attempts.
- `WebhookSweeper`: the per-minute sweep. It takes the 50 oldest PENDING
  events, enqueues one job each, and marks exactly those PROCESSING.
- `Validation`: the request-validation middleware. It selects the slot,
  writes the parsed data back, and groups schema issues by field, or
  throws while grouping them.

Wall-clock time, the upstream rate fetch, the HTTP send and the PIN hash
comparison are parameters:

- `now` is the current time;
- `FetchOutcome` is the result of the rate fetch;
- `SendOutcome` is the result of a webhook delivery;
- `pinValid` is the result of the PIN hash comparison.

Amounts are unbounded integers and rates are reals.

Points where the code does something other than its own comments or
names suggest; the model follows the code:

- **Expired invoices.** At `dist/src/services/invoice.service.js:62-67` the
  payment writes EXPIRED on an invoice past its expiry and then throws,
  inside the same `$transaction`. The throw rolls that write back, as the
  comment at line 98 says of the FAILED path, so the invoice stays
  PENDING. The status check at lines 59-61 comes before the expiry check,
  so an invoice that is no longer PENDING reports its status, not the
  expiry.
- **Backoff delays.** The comment at `queues/webhook.queue.ts:18` lists
  five backoff delays (1 s to 16 s). With five attempts there are only
  four waits between them (`WebhookQueue.BackoffSchedule`).
- **Transfer entries.** The entries of a converted transfer record the
  unconverted amount on both legs. The recipient's balance moves by the
  converted credit.
- **Transfer idempotency.** Both builds of `transferFunds` look the
  caller's key up but never store it on the new row (see "## Findings").
  `TransferLatest.TransferFunds` takes the choice as its `recordKey`
  argument: `false` is the code as written, `true` the intended
  behaviour. `TransferOlder.TransferFunds` runs the code as written.
- **Inherited field names.** The grouping of schema issues writes into an
  object literal (`src/middlewares/validation.middleware.ts:39-46`). A
  field named after a member of `Object.prototype`, such as
  `constructor`, already looks present, so no array is created and the
  `push` throws out of the catch block. No 400 reply is sent.
- **Invoice currency.** An invoice payment moves the invoice amount
  without converting currency. Payer and creditor may be the same account.

## Model

| member | source | states |
|---|---|---|
| Money.Floor | dist/src/services/transfer.service.js:179 | the result is the largest integer not above its argument (`Math.floor`) |
| Money.Ceil | dist/src/services/transfer.service.js:43 | the result is the smallest integer not below its argument (`Math.ceil`) |
| Money.WholeAmountsUnchanged | dist/src/services/transfer.service.js:36-43 | at rate 1.0 both roundings return the amount itself, so a same-currency movement credits what it debits |
| Money.CeilCreditCovers | dist/src/services/transfer.service.js:41-43 | the rounded-up credit is worth at least the amount at the rate: the bank absorbs the fraction |
| Money.FloorCreditBounded | dist/src/services/transfer.service.js:177-179 | the rounded-down charge credit never exceeds the exact product |
| Money.RoundingExamples | dist/src/services/transfer.service.js:42-43 | 100 at 0.97 credits 104 rounded up and 97 rounded down; 1000 at 0.90 credits 1112 rounded up |
| Ledger.ChooseReference | dist/src/services/transfer.service.js:67 | `reference \|\| prefix + now`: a non-empty caller reference is kept, otherwise a generated one |
| Ledger.FindByKey | dist/src/services/transfer.service.js:12-19 | a found transaction carries the key and is the first that does; none found means no transaction carries it |
| Ledger.FindByKeyAppend | dist/src/services/invoice.service.js:116-118 | after appending a row carrying a key, the lookup finds the earlier row if there was one, otherwise the new row |
| Ledger.UnlistedNumber | dist/src/services/transfer.service.js:23-25 | an account number missing from the unique index belongs to no account |
| Ledger.UnlistedEmail | dist/src/services/transfer.service.js:96-98 | an email missing from the unique index belongs to no account |
| Ledger.AccountByNumber | dist/src/services/transfer.service.js:23-25 | `findUnique` by account number: a result is the account with that number; none means no account has it |
| Ledger.AccountByEmail | dist/src/services/transfer.service.js:96-98 | `findUnique` by email: a result is the account with that email; none means no account has it |
| Ledger.Adjust | dist/src/services/transfer.service.js:57-60 | `balance: { increment/decrement }`: exactly one balance moves by the delta; no other account or field changes |
| Ledger.TwoLegs | dist/src/services/transfer.service.js:57-64 | after debit and credit legs on two distinct accounts the balances are moved exactly and nothing else changes |
| Ledger.TotalBalanceRemove | dist/src/services/transfer.service.js:57-64 | the sum of balances splits into one account plus the rest |
| Ledger.AdjustTotal | dist/src/services/transfer.service.js:57-60 | a single-leg adjustment changes the sum of all balances by exactly the delta |
| Ledger.TwoLegsTotal | dist/src/services/transfer.service.js:57-64 | two legs change the sum of all balances by credit minus debit |
| Ledger.MovedTotal | src/services/transfer.service.ts:31-38 | any movement of a debit and a credit changes the total by credit minus debit, so equal legs conserve it |
| Ledger.BalancesOnlyKeepValid | dist/src/services/transfer.service.js:57-64 | changing balances only keeps the store's index and reference invariants |
| Ledger.AppendValid | dist/src/services/transfer.service.js:65-82 | appending a row under the next id with an unused key keeps the invariants |
| Ledger.Post | dist/src/services/transfer.service.js:57-82 | a committed movement: debit and credit legs, the row appended, the next id taken; the invariants hold after it |
| Ledger.Settled | dist/src/services/invoice.service.js:81-97 | the invoice is rewritten and one outbox event is added under the next id; no balance, account, transaction or other invoice changes, no existing event is overwritten, and the invariants hold |
| Ledger.WithStatus | queues/webhook-sweeper.ts:29-34 | `updateMany`: exactly the listed events present get the status; every other event is unchanged |
| Ledger.Store.constructor | dist/src/services/transfer.service.js:4 | the store starts as the given snapshot |
| Ledger.Store.UpdateBalance | dist/src/services/transfer.service.js:57-64 | one balance moves by the delta; the rest of the store is unchanged |
| Ledger.Store.NewId | dist/src/services/invoice.service.js:28-37 | the next row id is issued and the counter advances; nothing else changes |
| Ledger.Store.CreateTransaction | dist/src/services/invoice.service.js:116-137 | the row is appended unless the unique index already holds its key, in which case nothing changes |
| Ledger.Store.PostMovement | dist/src/services/transfer.service.js:57-82 | the store ends as `Post` describes |
| Ledger.Store.RecordSettlement | dist/src/services/invoice.service.js:81-97 | the store ends as `Settled` describes |
| Ledger.Store.PutInvoice | dist/src/services/invoice.service.js:111-114 | one invoice row is written under its id; nothing else changes |
| Ledger.Store.UpdateEvent | queues/webhook.queue.ts:50-53 | one existing event row is replaced; nothing else changes |
| Ledger.Store.SetEventStatus | queues/webhook-sweeper.ts:29-34 | the event table ends as `WithStatus` describes |
| Ledger.Store.Restore | dist/src/services/invoice.service.js:52-68 | a rolled-back unit of work: the store is back at the snapshot |
| Exchange.Refreshed | src/services/exchange.service.ts:37-57 | a received table replaces the cache wholesale with the arrival time; a failed fetch keeps the old cache |
| Exchange.UsdRate | src/services/exchange.service.ts:24-25 | USD reads 1.0 whatever the table says; a missing currency reads as no rate |
| Exchange.LiveRate | src/services/exchange.service.ts:11-32 | equal currencies give 1.0 without touching the cache; only a stale cache is refreshed; a result is rate(to)/rate(from) and is never zero; the errors are exactly no table at all, or a missing/zero rate naming the pair |
| Exchange.FreshCacheIgnoresFetch | src/services/exchange.service.ts:14-20 | with a fresh cache the upstream is not consulted: any fetch outcome gives the same answer |
| Exchange.TtlBoundary | src/services/exchange.service.ts:9-16 | a table exactly 60000 ms old is fresh; 60001 ms old is stale |
| Exchange.RefreshServesWithinTtl | src/services/exchange.service.ts:44-49 | a successful refresh is what every lookup within the TTL of its arrival uses |
| Exchange.CrossRatesReciprocal | src/services/exchange.service.ts:24-31 | from one table, the A-to-B and B-to-A rates multiply to exactly 1 |
| Exchange.ExchangeService.constructor | src/services/exchange.service.ts:7 | the static cache starts empty |
| Exchange.ExchangeService.RefreshRates | src/services/exchange.service.ts:34-58 | the cache ends as `Refreshed`; the call fails exactly when no table is left |
| Exchange.ExchangeService.GetLiveRate | src/services/exchange.service.ts:11-32 | the returned rate and the cache afterwards are those of `LiveRate` |
| TransferLatest.ChargeMemo | dist/src/services/transfer.service.js:201 | `description \|\| 'Ticket purchase charge'` |
| TransferLatest.TransferMove | dist/src/services/transfer.service.js:44-82 | self-transfer refused; success iff accounts differ and the balance covers the amount, even with overdraft allowed (only the error differs); on success the sender loses the amount, the recipient gains the credit, entries are -amount/+amount, one POSTED row under the next id carrying both parties, both currencies, the rate, the memo and the key, with no amount column |
| TransferLatest.StoredKey | dist/src/services/transfer.service.js:65-82 | a stored key is always the caller's truthy key |
| TransferLatest.TransferStoring | dist/src/services/transfer.service.js:10-84 | an existing key replays its transaction before the amount is checked; then amount, sender, recipient, self-transfer in that order; otherwise the rate is looked up and the unit of work runs with credit = ceil(amount / rate); an error changes nothing |
| TransferLatest.AsWrittenRetryReexecutes | dist/src/services/transfer.service.js:65-82 | as written, a succeeded keyed transfer leaves no row with its key, so a retry is not a replay and a second success appends a second row |
| TransferLatest.RetryReplays | dist/src/services/transfer.service.js:12-19 | with the key stored, retrying a succeeded transfer returns the same transaction and changes nothing |
| TransferLatest.SameCurrencyTransferConserves | dist/src/services/transfer.service.js:36-64 | a same-currency transfer preserves the sum of all balances |
| TransferLatest.DepositMove | dist/src/services/transfer.service.js:114-148 | success iff the treasury covers the debit, otherwise the treasury error naming debit and currency; the user gains the amount, the treasury loses ceil(amount / rate), entries -debit/+amount |
| TransferLatest.Deposit | dist/src/services/transfer.service.js:85-149 | amount <= 0, amount > 100000, unset BANK_EMAIL, missing treasury, missing user, in that order; then the rate lookup and the unit of work; an error changes nothing |
| TransferLatest.ChargeMove | dist/src/services/transfer.service.js:180-213 | success iff the buyer's balance covers the amount, no overdraft; buyer loses the amount, seller gains floor(amount * rate), entries -amount/+credit; the row carries both parties, both currencies, the rate and the memo, with no key and no amount column |
| TransferLatest.Charge | dist/src/services/transfer.service.js:150-214 | amount bounds, buyer, seller, self-charge (before any rate lookup), in that order; then the lookup and the unit of work; an error changes nothing |
| TransferLatest.TransferFunds | dist/src/services/transfer.service.js:10-84 | the procedure ends with the result, store and cache of `TransferStoring` for its `recordKey`: the code as written with `false`, the intended `Transfer` with `true` |
| TransferLatest.MoveFunds | dist/src/services/transfer.service.js:47-83 | the unit of work ends as `TransferMove` describes |
| TransferLatest.PostDeposit | dist/src/services/transfer.service.js:85-149 | the deposit procedure ends as `Deposit` describes |
| TransferLatest.MoveDeposit | dist/src/services/transfer.service.js:114-148 | the unit of work ends as `DepositMove` describes |
| TransferLatest.DepositFunds | dist/src/services/transfer.service.js:85-149 | `depositFunds` of the current build, recording the debit in the amount column |
| TransferLatest.ChargePayment | dist/src/services/transfer.service.js:150-214 | `chargePayment` ends as `Charge` describes |
| TransferLatest.MoveCharge | dist/src/services/transfer.service.js:180-213 | the unit of work ends as `ChargeMove` describes |
| TransferOlder.TransferFunds | dist/services/transfer.service.js:10-84 | the older build runs the current procedure as written: result, store and cache of `TransferAsWritten`, whose row carries no key |
| TransferOlder.Deposit | dist/services/transfer.service.js:85-148 | succeeds and fails exactly when the current deposit does, with the same error, the same balances and the same rate cache; the only difference is that the stored row has no amount column |
| TransferOlder.DepositFunds | dist/services/transfer.service.js:85-148 | the procedure ends as this build's `Deposit` describes |
| TransferEarliest.Transfer | src/services/transfer.service.ts:12-62 | amount, self-transfer, sender, balance unless overdraft allowed, recipient, in that order; success iff all pass; the same amount leaves one account and enters the other; entries -amount/+amount in the sender's currency; the row keeps the caller's description and has no parties, rate, target currency, amount or key; an error changes nothing |
| TransferEarliest.TransferConserves | src/services/transfer.service.ts:31-38 | every transfer preserves the sum of all balances |
| TransferEarliest.NoOverdraftKeepsBalance | src/services/transfer.service.ts:26-30 | an account without overdraft never goes from non-negative to negative |
| TransferEarliest.TransferFunds | src/services/transfer.service.ts:12-62 | the procedure, including the rolled-back sender decrement when the recipient is missing, ends as `Transfer` describes |
| InvoiceOutbox.Create | dist/src/services/invoice.service.js:11-38 | amount, creditor, description, in that order; success iff all pass; a new PENDING invoice under a fresh id with exactly the given reference, endpoint and expiry |
| InvoiceOutbox.Decline | dist/src/services/invoice.service.js:79-100 | the invoice becomes FAILED and is returned; one PENDING failure event for its endpoint is added; balances and transactions are unchanged |
| InvoiceOutbox.Book | dist/src/services/invoice.service.js:102-151 | the payer loses and the creditor gains the invoice amount; the invoice becomes PAID with paidAt; one row carrying the key with entries -amount/+amount; one PENDING success event |
| InvoiceOutbox.Collect | dist/src/services/invoice.service.js:102-137 | a key the unique index holds rolls the whole payment back with an error; otherwise the payment is booked |
| InvoiceOutbox.Pay | dist/src/services/invoice.service.js:39-153 | a known key returns the current invoice with no change; then invoice, status (naming it), expiry, payer, PIN, in that order, each with no change; an uncovered payer gets the committed FAILED outcome, a covered one the payment; a non-admitted request never changes anything |
| InvoiceOutbox.ReplayAfterPayment | dist/src/services/invoice.service.js:41-51 | retrying a paid invoice with the same truthy key returns the PAID invoice and changes nothing |
| InvoiceOutbox.RetryAfterFailureRejected | dist/src/services/invoice.service.js:59-61 | a FAILED outcome stores no row, so a retry with the same key is refused as not PENDING |
| InvoiceOutbox.PaidAtMostOnce | dist/src/services/invoice.service.js:59-61 | after a payment, no request for the same invoice moves money or changes the store |
| InvoiceOutbox.PaymentConserves | dist/src/services/invoice.service.js:102-109 | every outcome of a payment preserves the sum of all balances |
| InvoiceOutbox.OneEventPerOutcome | dist/src/services/invoice.service.js:85-97 | every non-replayed payment that returns normally adds exactly one webhook event |
| InvoiceOutbox.CreatedInvoiceIsPayable | dist/src/services/invoice.service.js:11-38 | a freshly created invoice is paid at once by any covering payer with a valid PIN and an unused key |
| InvoiceOutbox.CreateInvoice | dist/src/services/invoice.service.js:11-38 | the procedure ends as `Create` describes |
| InvoiceOutbox.PayInvoice | dist/src/services/invoice.service.js:39-153 | the procedure, including the rolled-back EXPIRED write, ends as `Pay` describes |
| InvoiceOutbox.DeclinePayment | dist/src/services/invoice.service.js:79-100 | the writes end as `Decline` describes |
| InvoiceOutbox.CollectPayment | dist/src/services/invoice.service.js:102-151 | the writes, rolled back on a duplicate key, end as `Collect` describes |
| InvoiceEarliest.Create | src/services/invoice.service.ts:18-52 | the same checks and shadowed default reference as the current build; a new PENDING invoice under a fresh id stores the given creditor, amount, reference and description, with no endpoint and no expiry |
| InvoiceEarliest.Pay | src/services/invoice.service.ts:54-126 | invoice, PAID status, payer, exact PIN, balance, in that order, each with no change; success iff all pass; payer and creditor move by the amount, the invoice becomes PAID, one keyless row with entries -amount/+amount, no event |
| InvoiceEarliest.PayTwiceRejected | src/services/invoice.service.ts:64-66 | a paid invoice refuses any second payment and nothing changes |
| InvoiceEarliest.FailedOrExpiredStillPayable | src/services/invoice.service.ts:65-66 | FAILED and EXPIRED invoices are still payable: only PAID blocks |
| InvoiceEarliest.PaymentConserves | src/services/invoice.service.ts:86-94 | a payment preserves the sum of all balances |
| InvoiceEarliest.CreateInvoice | src/services/invoice.service.ts:18-52 | the procedure ends as `Create` describes |
| InvoiceEarliest.PayInvoice | src/services/invoice.service.ts:54-126 | the procedure ends as `Pay` describes |
| WebhookQueue.BackoffSchedule | queues/webhook.queue.ts:14-19 | no wait is shorter than the 1000 ms base, each wait doubles the previous one, and the four waits are 1 s, 2 s, 4 s and 8 s |
| WebhookQueue.ErrorMessage | queues/webhook.queue.ts:58 | the receiver's message when non-empty, else the error's own message |
| WebhookQueue.Process | queues/webhook.queue.ts:28-71 | success: COMPLETED, error cleared, attempts unchanged; failure: error recorded, attempts +1, status unchanged, rethrown; a missing event throws and changes nothing; only the job's event changes; the worker never sets FAILED |
| WebhookQueue.DeadLetter | queues/webhook.queue.ts:76-85 | FAILED is set only when a job is given, attemptsMade >= 5 and the event exists; otherwise nothing changes |
| WebhookQueue.Run | dist/queues/webhook.queue.js:16-70 | over successive attempts only the job's event changes, and it reaches FAILED from another status only when every attempt up to the fifth has failed |
| WebhookQueue.FailingRun | dist/queues/webhook.queue.js:48-67 | failing every remaining attempt ends FAILED, with each failure counted and the fifth error recorded |
| WebhookQueue.FiveFailuresDeadLetter | queues/webhook.queue.ts:56-85 | five failed sends end with FAILED, attempts raised by five and the last error kept |
| WebhookQueue.SucceedingRun | dist/queues/webhook.queue.js:42-59 | a success after some failures ends COMPLETED with no error and each failure counted |
| WebhookQueue.ProcessJob | dist/queues/webhook.queue.js:28-60 | the worker against the store: result and event table as `Process`; nothing else changes |
| WebhookQueue.OnFailed | dist/queues/webhook.queue.js:61-70 | the failed handler against the store: event table as `DeadLetter`; nothing else changes |
| WebhookSweeper.Secret | queues/webhook-sweeper.ts:23-24 | `WEBHOOK_SECRET` when set and non-empty, else "default-webhook-secret" |
| WebhookSweeper.PendingIds | queues/webhook-sweeper.ts:9-10 | exactly the PENDING events |
| WebhookSweeper.OldestExists | queues/webhook-sweeper.ts:12 | every non-empty set of events has an oldest member |
| WebhookSweeper.Oldest | queues/webhook-sweeper.ts:12 | the chosen event is no younger than any other candidate |
| WebhookSweeper.Select | queues/webhook-sweeper.ts:9-13 | min(limit, candidates) distinct candidates, oldest first, none older left behind |
| WebhookSweeper.Enqueued | queues/webhook-sweeper.ts:17-27 | never more jobs than events; with no add refused, one job per event in batch order with its id, endpoint, payload and the secret |
| WebhookSweeper.Accepted | queues/webhook-sweeper.ts:17-27 | the accepted events are events of the batch that the queue does not refuse |
| WebhookSweeper.AcceptedComplete | queues/webhook-sweeper.ts:17-27 | every event of the batch that the queue does not refuse is accepted |
| WebhookSweeper.AcceptedDistinct | queues/webhook-sweeper.ts:17-27 | a batch without repeats yields accepted events without repeats |
| WebhookSweeper.EnqueuedAccepted | queues/webhook-sweeper.ts:17-27 | whatever is refused, the queue gains exactly one job per accepted event, in batch order, carrying its id, endpoint, payload and the secret |
| WebhookSweeper.AtMostOneJobPerEvent | queues/webhook-sweeper.ts:9-27 | whatever is refused, one tick queues at most one job per event |
| WebhookSweeper.AcceptedJobRequeued | queues/webhook-sweeper.ts:17-27 | every job queued despite a refusal is also queued when the same batch is fully accepted |
| WebhookSweeper.RejectedIff | queues/webhook-sweeper.ts:17-27 | a tick is rejected if and only if the queue refuses the job of some event of the batch |
| WebhookSweeper.RejectedTickRequeues | queues/webhook-sweeper.ts:15-37 | after a rejected tick no event is marked, every event that did get a job is still PENDING and in the next batch, and a fully accepted next tick queues the same job again |
| WebhookSweeper.Swept | queues/webhook-sweeper.ts:15-37 | empty batch or a rejected enqueue: no event changes; otherwise exactly the batch becomes PROCESSING |
| WebhookSweeper.BatchIsOldestPending | dist/queues/webhook-sweeper.js:9-16 | at most 50, all PENDING, ordered by createdAt, no unselected PENDING event older, and fewer than 50 only when fewer are pending |
| WebhookSweeper.EmptyBatchIffNothingPending | dist/queues/webhook-sweeper.js:17-18 | the batch is empty exactly when no event is PENDING |
| WebhookSweeper.NotSweptTwice | dist/queues/webhook-sweeper.js:25-30 | after a tick marks its batch, the next tick's batch shares no event with it |
| WebhookSweeper.OneJobPerEvent | dist/queues/webhook-sweeper.js:19-24 | with every enqueue accepted each selected event gets exactly one job carrying its id and the secret |
| WebhookSweeper.JobQueue.constructor | queues/webhook.queue.ts:12 | the queue starts empty |
| WebhookSweeper.JobQueue.Add | queues/webhook-sweeper.ts:19-25 | an accepted job is appended; a refused one leaves the queue as it was |
| WebhookSweeper.EnqueueAll | dist/queues/webhook-sweeper.js:19-24 | every add is issued in batch order; the queue gains `Enqueued`; rejected iff some add was refused |
| WebhookSweeper.Sweep | dist/queues/webhook-sweeper.js:10-35 | one tick: the queue gains the batch's jobs and the event table ends as `Swept`; nothing else changes |
| Validation.JoinEmpty | src/middlewares/validation.middleware.ts:42 | a joined path is empty exactly for the empty path and the one-empty-segment path |
| Validation.Group | src/middlewares/validation.middleware.ts:41-54 | `fields` lists exactly the dictionary's keys, each once |
| Validation.GroupedByField | src/middlewares/validation.middleware.ts:41-47 | each field's entry holds exactly its issues' messages in issue order, and a field has an entry only if some issue files under it |
| Validation.MessagesForNonEmpty | src/middlewares/validation.middleware.ts:42-46 | a field has messages exactly when some issue is filed under it |
| Validation.CountUnlisted | dist/src/middlewares/validation.middleware.js:29-36 | changing an unlisted entry leaves the message count alone |
| Validation.CountAppend | dist/src/middlewares/validation.middleware.js:35 | one more message under a listed field adds one to the count |
| Validation.NoMessageDropped | dist/src/middlewares/validation.middleware.js:29-36 | the dictionary holds exactly one message per issue |
| Validation.RootIssuesUnderBody | dist/src/middlewares/validation.middleware.js:31 | an issue with an empty path is filed under `body` |
| Validation.GroupingThrowsIff | src/middlewares/validation.middleware.ts:39-46 | the grouping throws if and only if some issue's joined path is a name every plain JavaScript object inherits |
| Validation.InheritedFieldThrows | src/middlewares/validation.middleware.ts:42-46 | an issue at a field named `constructor` makes the grouping throw, whatever the other issues are |
| Validation.GroupIssues | src/middlewares/validation.middleware.ts:39-47 | the `forEach` throws exactly when some issue is filed under an inherited name; otherwise it builds the dictionary and key order `Group` describes |
| Validation.FileMessage | src/middlewares/validation.middleware.ts:43-46 | one iteration creates the field on first use and appends the message, as `File` describes |
| Validation.Reject | src/middlewares/validation.middleware.ts:36-61 | a ZodError gives the grouped details and fields, or escapes as a throw when some issue is filed under an inherited name; another error gives its message, or "Validation error" when that is empty or absent |
| Validation.Validate | src/middlewares/validation.middleware.ts:12-62 | the schema sees the slot `source` names (body by default); success sets validatedData and replaces only a slot named exactly; a failure changes no slot |
| Validation.OnlySelectedSlotRead | dist/src/middlewares/validation.middleware.js:8-13 | requests that agree on the selected slot get the same reply |
| Validation.UnnamedSourceWritesNoSlot | dist/src/middlewares/validation.middleware.js:8-23 | a source outside the three names reads the body but writes no slot back |
| Validation.Request.constructor | src/middlewares/validation.middleware.ts:4-6 | a request starts without validatedData |
| Validation.ValidateRequest | dist/src/middlewares/validation.middleware.js:6-50 | the middleware against a request object ends with the reply and slots of `Validate` |

## Left out

- The HMAC-SHA256 signature, the `axios.post` delivery and its 5 s timeout are left out. The outcome of the send is the input `SendOutcome`.
- BullMQ's scheduling, Redis and node-cron are left out. `WebhookQueue.Run` fixes one order of attempts, and one `WebhookSweeper.Sweep` call is one tick.
- Concurrency is left out: overlapping ticks, concurrent payments, row locks and racing inserts. Each operation is one sequential atomic step.
- The upstream rate fetch is left out. It is the input `FetchOutcome`, and the rate API's URL and JSON format are not modelled.
- Floating point is not modelled. Rates are reals and amounts are unbounded integers. The `Number(bigint)` precision loss above 2^53 and IEEE division error are not captured.
- Generated references (`REF-`, `DEP-FX-`, `CHG-`, `INV-` plus time or random suffix) are modelled as a generated-reference value, not as text.
- `bcrypt.compare` in the current invoice service is the boolean `pinValid`.
- The Zod schemas are the `schema` parameter of `Validation.Validate`. Their rules are not modelled.
- The HTTP status code 400 and the constant reply texts ('Validation failed', 'Please check your input data') are not fields of the reply.
- An exception thrown by `next()` inside the middleware's `try` is not modelled.
- Validation.GroupIssues: `fields` lists the keys in insertion order. JavaScript's `Object.keys` lists integer-like keys (a path such as `[0]`) first in numeric order; this is not modelled.
- WebhookSweeper.Select: events created at the same instant are taken in id order. The database leaves their order unspecified.
- The sweeper's `Promise.all` is modelled as issuing every add in batch order. Interleaving of the adds is not modelled.
- `InvoiceService.sendWebhook` (src/services/invoice.service.ts:128-150) is outside this model. It is direct HTTP I/O.
- Alerting after a dead letter (a TODO in the handler) and console logging are left out.
- The payload's `event` and `status` strings are implied by the `EventPayload` constructor, not stored.
- The account, auth and api-key services, controllers, routes, the seed script, src/utils/money.ts and the account-number generator are not part of this model.
- When the worker's success update finds no event row, the catch block's update throws too. The model records this as a thrown attempt with no change. Prisma's error text is not modelled.

## Findings

| source | as written | input that shows it | evidently intended | confidence | as-written member | corrected member |
|---|---|---|---|---|---|---|
| dist/src/services/transfer.service.js:65-82 | the transaction row created by `transferFunds` omits `idempotencyKey`, so the lookup at lines 12-19 can never find it | a transfer with key "k" succeeds; the same request is sent again with key "k" | the row stores the key, as the invoice service does (dist/src/services/invoice.service.js:118), so the retry returns the first transaction | not executed | TransferLatest.AsWrittenRetryReexecutes | TransferLatest.RetryReplays |
