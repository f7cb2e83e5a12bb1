# A verified model of the business back end

This project models the stateful core of a multi-tenant business back end and proves what it keeps
over whole runs. Six parts of the program are covered: orders under row locks, the idempotent
execution of integration operations, the billing ledger with its refunds, usage metering and
entitlement, the tenant and knowledge life cycles, and customers found or created by phone number.

`dafny verify dfyconfig.toml` checks everything.

## How it is built

Code that changes things step by step is imperative Dafny: sessions and services are classes with
the source's own loops, early returns and mid-operation commits. Each method is proved against a
function of the old state, and the theorems are about those functions. Code that runs in several
transactions at once is a state machine: one step per lock, read, insert, external call or commit,
and theorems over every interleaving of those steps.

| file | part of the program |
|---|---|
| `Orders`, `OrderLocking`, `OrderDeadlocks` | order placement in one transaction; many placements under row locks; exactly which orders deadlock |
| `Retry`, `ExecutionProtocol` | the retry loop; workers sharing one idempotency key |
| `BillingStates`, `Subscriptions` | the three billing tables; subscription operations and their history log |
| `BillingDb`, `Ledger`, `BillingServices` | the billing tables, what each request commits, the services that do it |
| `LedgerInvariants`, `LedgerRuns` | the ledger invariant over runs with crashes; what no run undoes |
| `LedgerResults`, `Webhooks`, `Activations`, `DeliveryRace` | confirmations and verification; deliveries and redeliveries; which payment each activation was for; deliveries at the same moment |
| `RefundProtocol` | refund execution by many workers |
| `Entitlement`, `Access`, `Usage`, `UsageRace` | limits and features; what billing operations open and close; metering one call at a time; metering by several workers |
| `Lifecycle`, `PipelinePayment` | the tenant pipeline; the payment evidence it asks for |
| `Knowledge` | versions and approvals of knowledge items |
| `Phone`, `Customers` | canonical phone numbers; customers found or created by many transactions |
| `Results`, `Text` | option and result types; ASCII case mapping |

Money is in integer cents and time in integer seconds. Clock readings, provider and adapter
replies, approval decisions and readiness are parameters. A table is a map, `FOR UPDATE` is an
exclusive row lock held to the end of the transaction, a unique index is a guard on an insert, and a
request ends in a commit if the service returns and in a rollback if it raises
(`app/database/session.py:37-47`). In the ledger a request may also be cut short after any of its
commits, so the invariant holds in every committed state a crash can leave.

## What does not hold, and exactly when it does

- An order that lists a product twice loses the first deduction: the session does not flush between
  items and each item reads the row again. Stock falls by what was sold if and only if each order
  lists each product once (`StockConservedIffDistinct`, `StockConservedIffOrdersDistinct`); with
  repeated products stock still never goes negative.
- Orders can deadlock if and only if some of them can be lined up in a circle in which each wants next a
  row that the one after it has locked, and no two have locked the same row (`DeadlockIff`; for two orders
  see `CircleOfTwo`). Orders that list products in ascending id order cannot
  (`AscendingOrdersNeverDeadlock`).
- A confirmation commits the payment and the invoice before it activates the subscription. Stopped
  between the two, it leaves a received payment without its activation, and repeating it returns
  early (`CrashLosesActivation`). Over any run a received payment of a subscription invoice has no
  activation if and only if the request that confirmed it was cut short between its two commits
  (`Activations.ActivationLostIff`). `Docs/AI_BOS_LOCKED_DECISIONS_ACT_001_090.md:1117-1119` promises
  an idempotent recovery here; the code has none in this path, and the model follows the code.
- The same can happen without any crash. The Midtrans endpoint commits one record per notification together
  with the activation. Between the two commits another delivery of that notification can find the payment
  received and commit its record first; the unique index then refuses the record of the delivery that
  confirmed, and its activation is rolled back. The activation survives if and only if the record that stands
  is that delivery's own (`ActivatedIffOwnRecord`), so it survives every interleaving if and only if there
  is at most one delivery (`NeverLostIffAlone`), and nothing delivered later brings it back
  (`RecordSettlesAll`).
- Activation after a payment uses the subscription's current plan, not the plan that was invoiced
  (`ConfirmedLedger`).
- A worker that dies between the provider's payout and its own commit leaves the approval APPROVED,
  and executing it again pays out twice (`LateCrashPaysTwice`). The provider's total exceeds the recorded
  one by exactly the amounts of those crashes (`ProviderTotal`); with positive amounts the two agree if and
  only if nobody died in that window (`ProviderAgreesIffNoLateCrash`).
- Nothing checks that a refund is positive. For refunds of any amounts the totals still add up and the
  status follows them (`RefundsAddUp`, `ProviderTotal`). The status says truly how much was refunded if
  and only if nothing was or the refunded total is positive (`StatusTrueIff`, `ZeroRefundBreaksTheStatus`),
  and the transition check fails exactly on a negative refund of a payment refunded in full (`BadStatusIff`).
- A failure webhook does not record its provider id. If no payment carries that id, a second delivery after
  a new payment was opened for the same invoice fails the new payment too (`FailureHitsTheNextPayment`),
  although `app/billing/payments.py:238` promises idempotent processing. After any run, a decisive webhook
  changes nothing if and only if its provider id is on a decided payment, or is unknown while the invoice
  does not have exactly one open payment, or it announces a failure the subscription's status does not
  admit (`RedeliveryIsIdleIff`). This is about the service: the Midtrans endpoint stops a second delivery with
  the same transaction id and status before it gets there (`app/api/v1/webhooks.py:180-182`), so there only
  the general webhook endpoint (`app/api/v1/billing.py:570-586`) or another status reaches the service twice.
- The cancel endpoint (`app/api/v1/integrations.py:704-708`) writes CANCELLED over any status. The ledger
  invariant survives if and only if the payment was not received, or it was not refunded and the invoice
  has another received payment (`CancelKeepsInvIff`); over any run it holds at every point if and only if no
  other cancellation took effect (`SoundThroughoutIff`).
- A tenant without a subscription who is asked to pay for a plan gets an invoice that names no subscription
  (`app/api/v1/billing.py:195-199`); its payment activates nothing (`ConfirmedLedger`).
- A customer found by external id is not given the number of the call, so a later call with that number
  alone creates a second customer (`ExternalIdHidesTheNumber`). Of two calls with the same number, one of
  them given the customer stored under it, both get the same customer if and only if the other was given
  that one too (`SameNumberSameCustomerIff`). A call is, if and only if it sees the number, or sees no
  customer with its external id, or sees the number on that customer (`LookupsDecide`); with nobody in
  between, if and only if it sees the number or sees no customer with its external id (`NothingInBetween`).
- Seeding a missing plan also resets the stored prices of the other built-in plans; it changes no price if
  and only if none of them was stored at another price (`SeedingIsNeutralIff`).
- A first dunning call straight to a rung that the current status has no edge to is refused: days 4 to 7
  from ACTIVE, 4 to 29 from a trial, 0 to 29 from a cancelled subscription (`FirstDunningCall`).
- `check_and_increment_usage` calls itself atomic but takes no lock. The limit holds over every
  interleaving if and only if there is one worker, nothing to add, or nothing that fits
  (`LimitHoldsIffAlone`); in general it is passed by at most (workers - 1) times the largest increment
  that can be accepted, and that bound is reached (`OvershootIsBounded`, `OvershootIsReached`).
- A correction with a negative quantity lets a usage threshold fire twice (`CorrectionsRepeatAThreshold`).
  Over any run a threshold fires once for every time usage gets to it (`ThresholdFirings`); a call keeps the
  firings in step with usage if and only if it does not take usage back behind the threshold
  (`AgreementSurvivesIff`). The only caller (`app/core/ai_gateway/usage.py:74`) passes at least 1.
- On a zero limit with negative usage, metric access says no where a blocking increment of one would
  pass; everywhere else the two agree (`AccessMatchesIncrement`).
- A platform owner's recovery from BLOCKED or ERROR, and a provisioning run, both take a tenant past
  the payment step (`ShortcutsSkipThePayment`). One operation on a tenant that has not paid does so if and
  only if it is such a recovery, or a provisioning run that finds the tenant ready or still a prospect
  (`PassesByIff`); at every point of a run, past the payment means the payment step was taken, if and only
  if nobody did so before (`PaidForThroughoutIff`). The step itself is taken if and only if billing found
  evidence or somebody asked for PAID by name, which needs none (`PaymentStepIsVouchedFor`).
- The activation gate asks for a `verified_payment` flag in the subscription's metadata
  (`app/tenants/lifecycle.py:487-495`); nothing under `app/` writes it, only fixtures under `tests/` do.
- Content edited while a knowledge item is OUTDATED goes ACTIVE without a new approval
  (`UnapprovedContentGoesLive`). The version is ahead of the approved one by exactly those edits
  (`ApprovalTrailsByOutdatedEdits`), so what is in use was approved as it is if and only if there were none
  (`ApprovedContentIsInUseIff`).

## Model

| member | source | states |
|---|---|---|
| Orders.OrderSession.CreateOrderWithItems | app/repositories/domain.py:417-498 | the item loop, with its pending rows, lines, subtotal and three errors, leaves the session with exactly the specified placement, or raises with nothing stored |
| Orders.OrderSession.SubmitOrder | app/api/v1/orders.py:36-86 | the whole request commits the placed order, or leaves the committed store as it was |
| Orders.OrderSession.Commit | app/database/session.py:37-47 | a commit flushes pending rows and publishes the session's view |
| Orders.OrderSession.Rollback | app/database/session.py:43-45 | a rollback returns to the committed store |
| Orders.AcceptedExactlyWhen | app/repositories/domain.py:441-470 | an order is accepted if and only if every line has a positive quantity, finds its product in the tenant and does not exceed its stock |
| Orders.FailurePropagates | app/repositories/domain.py:441-470 | the first failing item decides the whole order |
| Orders.LinesMatchItems | app/repositories/domain.py:472-497 | an order has one line per item, at the product's name and price, and its subtotal is the sum of its lines |
| Orders.StockAfterOrder | app/repositories/domain.py:459-470 | a placement lowers each product's stock by the quantity of its last line, marks it out of stock at zero, and leaves its stock status otherwise and every other field as they were |
| Orders.StockConservedIffDistinct | app/repositories/domain.py:444-466 | stock falls by exactly what was sold if and only if the order lists each product once |
| Orders.DuplicateLinesLoseADeduction | app/repositories/domain.py:444-466 | three and then four of ten units in one order leave six |
| Orders.SubmitStoresTheOrder | app/api/v1/orders.py:36-86 | a submitted order is accepted if and only if the customer and every product are the tenant's and every quantity is positive and in stock; the store then gains exactly that order, with the request's customer and currency and one line per item at the stored name and price, and otherwise does not change |
| Orders.SubmitRefuses | app/api/v1/orders.py:36-86 | why it is refused: no such customer, then no such product, then the first line that fails, for its quantity or its stock |
| Orders.PlacementAcceptedIff | app/repositories/domain.py:417-470 | a placement may start in three states only and then needs products and quantities, and stock if it deducts |
| Orders.PlacementStores | app/repositories/domain.py:472-498 | a placement appends exactly the order of its request; without deduction no product changes |
| OrderLocking.Serializable | app/repositories/domain.py:436-497 | after any interleaving, with failures and rollbacks, the store is the one obtained by submitting the committed orders one at a time in commit order |
| OrderLocking.CommitKeepsTx | app/repositories/domain.py:444-453 | a committing transaction writes only rows it has locked, so what every other one has read still stands |
| OrderLocking.CommitIsSubmit | app/api/v1/orders.py:69-83 | a transaction that commits has computed what the request alone would compute on the store at that moment |
| OrderLocking.SerialStock | app/repositories/domain.py:459-470 | over a sequence of orders stock falls by the sum of last-line quantities and never goes negative |
| OrderLocking.StockConservedIffOrdersDistinct | app/repositories/domain.py:436-497 | over every interleaving stock plus committed quantities equals initial stock for every product if and only if no committed order repeats a product |
| OrderLocking.CommittedOrders | app/repositories/domain.py:472-498 | over every interleaving the stored orders are those that were there and then one for each committed request, in commit order, with its own lines and sums |
| OrderDeadlocks.DeadlockIff | app/repositories/domain.py:436-470 | for any orders, in any number of transactions, over every interleaving: all that run can end up waiting if and only if some of the orders form a circle of wanted and held rows |
| OrderDeadlocks.CircleOfTwo | app/repositories/domain.py:444-453 | two orders form a circle if and only if each can get to a line whose row the other has locked, and nothing is locked by both |
| OrderDeadlocks.AscendingOrdersNeverDeadlock | app/repositories/domain.py:444-453 | while every running order lists products in ascending id order, some running transaction can move |
| OrderDeadlocks.AloneIsSubmit | app/repositories/domain.py:436-498 | with nobody else running, every step of an order that can be served goes through and leaves what the request leaves |
| Retry.ExecuteWithRetry | app/integrations/retry.py:11-48 | the loop stops after the specified attempt, replies as that attempt ended and has slept the specified time |
| Retry.StopsExactlyAt | app/integrations/retry.py:19-48 | n attempts are made if and only if the first n - 1 were retryable and the n-th was decisive or used up a budget of max(1, max_retries) |
| Retry.SleptIsGeometric | app/integrations/retry.py:36-48 | after n retries the loop has slept initial_delay times the sum of backoff_factor^i for i < n |
| Retry.AttemptsPerOperation | app/integrations/service.py:425-427 | a send is attempted once, anything else at most three times within 1.5 seconds of waiting |
| Retry.OnlyTransientErrorsAreRetried | app/integrations/retry.py:19-48 | nothing follows an attempt that returned or raised a permanent error; a transient error is tried again while attempts are left |
| Retry.TermsAreTransient | app/integrations/retry.py:30-34 | an unclassified error is tried again if and only if its message has one of the five terms in it, in whatever case |
| ExecutionProtocol.AwaitExisting | app/integrations/service.py:322-346 | the first poll loop returns a final row, or goes on to insert, as the sequence of fresh reads decides |
| ExecutionProtocol.AwaitAfterConflict | app/integrations/service.py:382-408 | the poll loop after a lost insert returns the last row read, or raises if there was none |
| ExecutionProtocol.AdapterCalledAtMostOncePerOwner | app/integrations/service.py:322-494 | over every interleaving of workers with one key the run contains at most one adapter call more than rollbacks |
| ExecutionProtocol.ExactlyOneCall | app/integrations/service.py:322-494 | with no rollback, a final result means the run contains exactly one adapter call |
| ExecutionProtocol.ResultsAgree | app/integrations/service.py:322-494 | all results that stand, whether their transaction is still open or committed, carry one execution id, and all final ones are the same row |
| ExecutionProtocol.ConflictNeverRaises | app/integrations/service.py:382-408 | a worker that lost the insert always finds the winner's row |
| ExecutionProtocol.NobodyPolls | app/integrations/service.py:329-408 | no adapter commits the session it is handed, so no worker ever waits for a running row, a lost insert reads its result at once, and every result is final |
| ExecutionProtocol.OneResult | app/integrations/service.py:322-494 | and all results that stand are the same row |
| ExecutionProtocol.ResultsAreOutcomes | app/integrations/service.py:411-494 | over every interleaving, every final result is the outcome of an adapter call of the worker that inserted its row: COMPLETED if and only if that call succeeded, with the payload it reported |
| ExecutionProtocol.EveryoneGetsTheOutcome | app/integrations/service.py:322-494 | with no rollback, whichever call was made, every final result is its outcome |
| ExecutionProtocol.AloneCompletes | app/integrations/service.py:322-494 | a worker on its own gets through, and it and one that comes later are told what the adapter reported |
| ExecutionProtocol.DirectWorkersTerminate | app/integrations/service.py:322-494 | and a worker is done within four steps of its own |
| ExecutionProtocol.WorkersTerminate | app/integrations/service.py:329-333 | even with early commits and however the others are scheduled a worker takes at most 104 steps |
| ExecutionProtocol.SomeoneMoves | app/integrations/service.py:376-381 | only an insert waiting for the row's owner is blocked, and that owner can move |
| Subscriptions.BilledAmountIsNearest | app/billing/plans.py:176-182 | a yearly amount is the cent nearest to twelve months less 15 percent, and is positive exactly when the price is |
| Subscriptions.ApplyKeepsLog | app/billing/subscription.py:31-277 | each operation keeps the history faithful, edits no old row and writes at most one |
| Subscriptions.HistoryIsFaithful | app/billing/subscription.py:31-277 | after any sequence of operations, replaying the history gives the current plan and status |
| Subscriptions.ReplayChains | app/billing/subscription.py:423-445 | in a faithful log every row starts where the one before it ended and its status step is an edge or a stutter |
| Subscriptions.NeverArchived | app/billing/state_machine.py:40-85 | no sequence of operations archives a subscription |
| Subscriptions.PriceFollowsPlan | app/billing/subscription.py:31-277 | over a fixed catalogue, after any sequence of operations the amount is the price of the current plan and cycle |
| Subscriptions.SeedingIsNeutralIff | app/billing/plans.py:189-210 | seeding changes no price if and only if no built-in plan is stored at another price |
| Subscriptions.UnpaidIsActiveOnlyIfFree | app/billing/subscription.py:119-128 | while no call vouches for a payment, a subscription is ACTIVE only on a plan that costs nothing |
| Subscriptions.DunSucceedsIffNotDown | app/billing/subscription.py:390-421 | between rungs a dunning call succeeds if and only if the target rung is not below the current one, and ends on it |
| Subscriptions.FirstDunningCall | app/billing/subscription.py:390-421 | which first calls are refused: days 4 to 7 from ACTIVE, days 4 to 29 from a trial, days 0 to 29 from a cancelled subscription, all from an archived one |
| Subscriptions.DunningClimbs | app/billing/subscription.py:390-421 | from PAST_DUE, calls with non-decreasing days all succeed and end on the rung of the last |
| Subscriptions.SeverityNeverFalls | app/billing/state_machine.py:40-85 | in any faithful log severity does not fall without passing through ACTIVE |
| Subscriptions.ActivationTerms | app/billing/subscription.py:104-201 | an activation is accepted if and only if the plan is known and free or vouched for and the subscription is not archived; it buys the requested plan and cycle from now for 365 days if yearly and for 30 otherwise, at that price, and changes nothing else |
| Subscriptions.RefusedPurchase | app/billing/subscription.py:104-262 | which error an activation and a plan change raise |
| Subscriptions.TrialTerms | app/billing/subscription.py:31-89 | a first subscription is a starter trial that ends after its days; an existing one is kept |
| Subscriptions.PlanChangeTerms | app/billing/subscription.py:203-277 | a plan change is accepted if and only if the plan is known and free or vouched for, and keeps status and period |
| Subscriptions.CancellationTerms | app/billing/subscription.py:356-388 | trials and active subscriptions, and cancelled ones again, can be cancelled; they keep plan and period |
| Subscriptions.ExpiryTerms | app/billing/subscription.py:91-102 | a trial expires from its end on and not before |
| Subscriptions.DunningTerms | app/billing/subscription.py:390-421 | the status each day ends in and what it stamps, with plan and period kept |
| Access.ActivationOpens | app/billing/entitlement.py:56-214 | an activation opens the requested plan's limits and features for exactly its period, and nothing after it |
| Access.TrialOpens | app/billing/entitlement.py:56-214 | a trial opens the trial's limits and features for exactly its days |
| Access.ExpiryTakesNothing | app/billing/entitlement.py:60-68 | when a trial is expired, everything was closed already |
| Access.CancellationKeepsThePeriod | app/billing/entitlement.py:70-74 | a cancelled subscription stays open on its plan until its period ends |
| Access.DunningCloses | app/billing/entitlement.py:56-189 | dunning closes everything from day 14; before that the plan stays open until the period ends, with three features only from day 8 |
| Access.PaymentOpens | app/billing/payments.py:162-180 | a confirmed subscription payment opens the tenant's own plan for exactly its period from now |
| Access.PaymentResetsUsage | app/billing/usage.py:46-57 | and usage starts again from zero |
| Access.TrialAllowances | app/billing/entitlement.py:127-129 | the seven trial allowances |
| BillingServices.SubscriptionService.CreateTrialSubscription | app/billing/subscription.py:31-89 | creates the trial and its history row, or returns the existing subscription |
| BillingServices.SubscriptionService.ActivateSubscription | app/billing/subscription.py:104-201 | activates or creates on the requested plan and cycle, any cycle but YEARLY counting as monthly, or raises without payment verification or a legal step |
| BillingServices.SubscriptionService.ChangePlan | app/billing/subscription.py:203-277 | changes plan, cycle and amount and records it, or raises |
| BillingServices.SubscriptionService.CancelSubscription | app/billing/subscription.py:356-388 | moves to CANCELLED_PENDING_EXPIRY with its time, or raises |
| BillingServices.SubscriptionService.CheckTrialExpiration | app/billing/subscription.py:91-102 | expires a trial whose end has come and nothing else |
| BillingServices.SubscriptionService.UpdatePaymentFailureStatus | app/billing/subscription.py:390-421 | moves to the rung for the days past due and stamps it, or raises |
| BillingServices.SubscriptionService.TransitionStatus | app/billing/subscription.py:423-445 | validates the step, then writes status and history row together |
| BillingServices.InvoiceService.CreateInvoice | app/billing/invoices.py:52-110 | the totals loop builds the specified invoice, which is committed |
| BillingServices.InvoiceService.UpdateInvoiceStatus | app/billing/invoices.py:112-125 | a legal status change commits the whole working copy; anything else raises and commits nothing |
| BillingServices.PaymentService.CreatePaymentIntent | app/billing/payments.py:87-137 | a pending payment with the invoice's total and currency, or the matching error |
| BillingServices.PaymentService.ConfirmPaymentSuccess | app/billing/payments.py:139-194 | commits payment and invoice, then activates; each committed state and the reply are the specified ones |
| BillingServices.PaymentService.RecordPaymentFailure | app/billing/payments.py:196-230 | marks the payment failed and runs day-0 dunning in one transaction, or raises |
| BillingServices.PaymentService.HandleProviderWebhook | app/billing/payments.py:232-320 | finds the one payment a webhook is about and confirms, fails or leaves it |
| BillingServices.PaymentService.WebhookRequest | app/database/session.py:37-47 | a webhook request adds exactly the specified committed states to the database's log |
| BillingServices.RefundService.RequestRefund | app/billing/refunds.py:21-74 | a refund that fits a received payment becomes an awaiting approval |
| BillingServices.RefundService.ExecuteApprovedRefund | app/billing/refunds.py:76-173 | executes an approved refund, records a failed one, or raises, with the specified commits |
| BillingServices.IntegrationEndpoints.CancelPayment | app/api/v1/integrations.py:674-710 | writes and commits CANCELLED over whatever status the payment has when the provider confirms |
| LedgerResults.IntentTerms | app/billing/payments.py:87-137 | a payment is opened if and only if the invoice is the tenant's, a given amount and currency are the invoice's, and the provider accepts under an unused id; it is PENDING at the invoice's total and nothing else changes |
| LedgerResults.ConfirmAcceptedIff | app/billing/payments.py:139-160 | in a sound ledger a confirmation is accepted if and only if the payment is the tenant's and SUCCEEDED already, or PENDING and not confirmed under another payment's id; otherwise the error says which |
| LedgerResults.PayingActivates | app/billing/payments.py:87-180 | an invoice made for the tenant's subscription, a payment opened for it and confirmed: the invoice is PAID and the subscription ACTIVE |
| LedgerResults.RefundRequestTerms | app/billing/refunds.py:21-74 | a refund is accepted if and only if the payment is the tenant's, was received, is not refunded in full by status, and the amount is at most what its executed approvals leave; one awaiting approval is added and nothing else changes |
| LedgerResults.OtherwiseNoRefund | app/billing/refunds.py:83-101 | executing an approval that is not the tenant's own and approved changes nothing |
| LedgerResults.RefundTooLargeIff | app/billing/refunds.py:115-124 | an approved refund is refused and marked as failed if and only if it exceeds what the executed approvals leave |
| LedgerResults.RefundTerms | app/billing/refunds.py:115-159 | one that fits is executed if and only if the provider pays; it is then refunded by the amount, in full if nothing is left; a declined one is marked as failed |
| LedgerResults.CancellationWrites | app/api/v1/integrations.py:704-708 | a confirmed cancellation writes CANCELLED over the payment's status and nothing else; an unconfirmed one changes nothing and raises nothing |
| LedgerInvariants.EveryCommitKeepsInv | app/billing/payments.py:139-194 | every state any billing request commits, in the middle or at the end, satisfies the ledger invariant |
| LedgerInvariants.FirstHalfKeepsInv | app/billing/invoices.py:112-125 | the state committed in the middle of a confirmation satisfies it too |
| LedgerInvariants.RefundKeepsInv | app/billing/refunds.py:115-159 | an executed refund of any amount keeps refunded amount, executed approvals and status in step |
| LedgerInvariants.RunKeepsInv | app/database/session.py:37-47 | the invariant holds over any run of requests, refunds of any amounts and harmless cancellations included, with a crash possible after any commit |
| LedgerInvariants.CancelKeepsInvIff | app/api/v1/integrations.py:704-708 | the cancel endpoint keeps the invariant if and only if the payment was not received, or it was not refunded and the invoice has another received payment |
| LedgerInvariants.SoundThroughoutIff | app/api/v1/integrations.py:704-708 | over any run with crashes, cancellations of any kind included, the invariant holds at every point if and only if no harmful cancellation took effect |
| LedgerInvariants.StatusTrueIff | app/billing/refunds.py:126-157 | the status says truly how much was refunded if and only if nothing was or the refunded total is positive |
| LedgerRuns.RunContinues | app/billing/state_machine.py:119-137 | over any run with crashes, invoices keep their terms, payments their invoice and tenant, and decided payments stay decided under their provider id |
| LedgerInvariants.CommittedTables | app/billing/payments.py:94-160 | from empty tables: an invoice is PAID exactly when a payment of it was received, payments carry their invoice's tenant, total and currency, refunds add up, histories are faithful |
| LedgerResults.InvoiceAddsUp | app/billing/invoices.py:66-92 | one line per definition; the total is what the lines are worth less discount plus tax |
| LedgerResults.ConfirmFailsHalfwayIff | app/billing/payments.py:160-180 | a confirmation raises after its first commit if and only if the subscription is missing, archived or on an unknown plan |
| LedgerResults.ConfirmNeverFailsHalfway | app/billing/payments.py:139-180 | in a sound ledger that never happens |
| LedgerResults.ReachableConfirmationCompletes | app/billing/payments.py:139-180 | from empty tables, over any run with crashes, a confirmation that commits at all also activates |
| LedgerResults.ConfirmedLedger | app/billing/payments.py:139-194 | what a completed confirmation changes: that payment, its invoice, and the tenant's status, history and period on its own plan: it starts now and lasts 365 days for a yearly cycle and 30 otherwise |
| LedgerResults.CrashLosesActivation | app/billing/payments.py:147-160 | stopped between the commits, the activation is lost and a repeated confirmation does nothing |
| LedgerResults.FailureIsAtomic | app/billing/payments.py:196-230 | a failed payment and its dunning are committed together, exactly when the status is TRIALING, ACTIVE or PAST_DUE |
| Webhooks.WebhookTarget | app/billing/payments.py:275-306 | a webhook is about the tenant's payment with its provider id, else the invoice's only open payment; the announced amount is that payment's if the invoices agree |
| Webhooks.AmbiguousIff | app/billing/payments.py:275-300 | a webhook is ambiguous if and only if its provider id is new and its invoice has several open payments |
| Webhooks.ResolvesIff | app/billing/payments.py:247-306 | a webhook is about a payment if and only if it matches an invoice in tenant, amount and currency and the payment has its provider id or, if none has, is the invoice's only open one |
| Webhooks.UnmatchedIsRejected | app/billing/payments.py:247-272 | one that matches no invoice is rejected with its own error and changes nothing |
| Webhooks.DecidedWebhookChangesNothing | app/billing/payments.py:232-320 | a webhook that reaches a decided payment commits nothing new |
| Webhooks.WebhookDecidesOne | app/billing/payments.py:232-320 | a webhook creates no payment and changes at most one, from PENDING to the announced outcome |
| Webhooks.DecisionStands | app/billing/payments.py:232-320 | no sequence of webhooks creates a payment or changes a decided one |
| Webhooks.FirstDecisionStands | app/billing/payments.py:232-320 | the first webhook to decide a payment is the last to change it |
| Webhooks.FirstDecisionSettlesAll | app/billing/payments.py:232-320 | once a payment is decided, webhooks that can only be about it change no payment, invoice, subscription or history row |
| Webhooks.DeliveryIsIdleIff | app/billing/payments.py:264-320 | in every sound state a decisive webhook changes nothing if and only if it is spent or announces a failure that is refused |
| Webhooks.RedeliveryIsIdleIff | app/billing/payments.py:232-320 | the same for a second delivery after any run of requests and crashes |
| Webhooks.RecordedIsIdleForEver | app/billing/payments.py:275-284 | once its provider id is on a decided payment, a webhook changes nothing after any run |
| Webhooks.AcceptedSuccessIsIdempotent | app/billing/payments.py:147-157 | a success accepted under its own provider id is never processed again |
| Webhooks.FailureHitsTheNextPayment | app/billing/payments.py:196-213 | a failure under an unrecorded id, delivered again after a new payment was opened, fails that one too |
| Activations.OneActivationPerPayment | app/billing/payments.py:162-180 | from empty tables, on any run with crashes, refunds and cancellations: every row the provider signed is for a payment of that tenant's subscription invoices, no two for the same payment, and if nothing is cut short every received payment has its row |
| Activations.ActivationLostIff | app/billing/payments.py:147-180 | on any run from empty tables, a received payment of a subscription invoice has no activation if and only if the request that confirmed it was cut short between its two commits |
| DeliveryRace.LedgerIsOneDelivery | app/api/v1/webhooks.py:179-210 | however many deliveries of one notification interleave, the ledger is in a state that a single delivery commits |
| DeliveryRace.ActivatedIffOwnRecord | app/api/v1/webhooks.py:199-210 | once the delivery that confirmed is done, its activation is there if and only if the notification's record is its own |
| DeliveryRace.RecordSettlesAll | app/api/v1/webhooks.py:180-182 | once a record stands no delivery changes the ledger, so a lost activation stays lost |
| DeliveryRace.FirstFinishes | app/api/v1/webhooks.py:179-210 | a delivery that goes through before the other gets any further records, and its activation is there |
| DeliveryRace.TwoDeliveriesLose | app/api/v1/webhooks.py:179-210 | two deliveries at once, neither of which stops, can lose the activation |
| DeliveryRace.NeverLostIffAlone | app/api/v1/webhooks.py:179-210 | the activation survives every interleaving of so many deliveries if and only if there is at most one |
| LedgerResults.VerifiedIff | app/tenants/lifecycle.py:83-132 | in a sound ledger payment verification means a free subscription or a SUCCEEDED payment; the PAID test is implied |
| LedgerResults.ConfirmationVerifies | app/tenants/lifecycle.py:106-132 | confirming a subscription payment verifies the tenant from the first commit on |
| LedgerResults.RefundingTheOnlyPaymentUnverifies | app/billing/refunds.py:154-159 | refunding any part of the only such payment takes the verification away |
| RefundProtocol.RefundsAddUp | app/billing/refunds.py:76-159 | over every interleaving of requests, decisions and executions, for refunds of any amounts: the refunded total is the sum of the executed approvals, stays within the payment and decides its status |
| RefundProtocol.StatusTrueIff | app/billing/refunds.py:126-157 | the status says truly how much was refunded if and only if nothing was or the refunded total is positive |
| RefundProtocol.PositiveRefundsKeepTheStatusTrue | app/billing/refunds.py:126-157 | which is always so when only positive refunds are requested |
| RefundProtocol.BadStatusIff | app/billing/refunds.py:115-129 | in a reachable state the transition check fails if and only if the refund is negative and the payment refunded in full |
| RefundProtocol.ProviderTotal | app/billing/refunds.py:131-159 | the provider's total is the recorded one, plus what one worker may have in flight, plus the amounts of the crashes between payout and commit |
| RefundProtocol.RunKeepsInv | app/billing/refunds.py:82-159 | every run keeps locks, worker positions, tables and the provider's totals consistent |
| RefundProtocol.AssessmentNeverMeetsABadStatus | app/billing/refunds.py:126-129 | so with positive amounts the transition check never fails in a reachable state |
| RefundProtocol.ProviderAgreesIffNoLateCrash | app/billing/refunds.py:131-159 | with positive amounts and nothing in flight, provider and ledger totals agree if and only if no worker died between payout and commit |
| RefundProtocol.LossesAreLateCrashes | app/billing/refunds.py:131-159 | what is lost is exactly the sum of the amounts of those crashes |
| RefundProtocol.UninterruptedRefund | app/billing/refunds.py:76-173 | a worker that is not interrupted does what the service call does |
| RefundProtocol.LateCrashPaysTwice | app/billing/refunds.py:131-159 | after such a crash the approval can be executed again and the provider pays twice |
| RefundProtocol.NoDeadlock | app/billing/refunds.py:82-110 | approval first, payment second: while some worker is busy, some worker can take its next step |
| RefundProtocol.EveryApprovalFitted | app/billing/refunds.py:29-41 | over every interleaving, each approval was asked for, for a received payment of its tenant and within what executed refunds then left of it |
| RefundProtocol.TooLargeIff | app/billing/refunds.py:115-124 | over every interleaving an assessment finds a refund too large if and only if it exceeds what executed refunds leave |
| RefundProtocol.FreshRefundFits | app/billing/refunds.py:21-173 | a refund approved and executed first thing after its request is never too large |
| RefundProtocol.UnpaidRefund | app/billing/refunds.py:131-152 | a worker whose refund the provider refuses or fails also ends as the service call does |
| RefundProtocol.RefusedRefund | app/billing/refunds.py:83-101 | so does one whose approval is not the tenant's or not approved |
| RefundProtocol.UnassessedRefund | app/billing/refunds.py:106-129 | so does one whose payment is missing, has too little left or may not be refunded |
| RefundProtocol.RefundConsistentIff | app/billing/refunds.py:115-129 | a refund of any amount leaves status and refunded total consistent if and only if that total is positive |
| RefundProtocol.ZeroRefundBreaksTheStatus | app/billing/refunds.py:38-41 | a refund of nothing, requested, approved and executed, leaves PARTIALLY_REFUNDED with nothing refunded |
| Entitlement.GetActiveTenantAddons | app/billing/entitlement.py:82-110 | the loop keeps exactly the add-ons in force, in order |
| Entitlement.FilteringIsHarmless | app/billing/entitlement.py:99-110 | a row is kept if and only if it is in force, and filtering changes no total and no unlimited grant |
| Entitlement.GetLimit | app/billing/entitlement.py:116-149 | the accumulating loop with its early exits computes the order-free limit |
| Entitlement.OrderDoesNotMatter | app/billing/entitlement.py:140-149 | any permutation of the add-ons gives the same limit |
| Entitlement.UnlimitedExactlyWhen | app/billing/entitlement.py:137-149 | with grants of -1 or more, the limit is -1 if and only if the plan or an add-on in force is unlimited |
| Entitlement.AddonsNeverTakeAway | app/billing/entitlement.py:140-149 | adding an add-on never lowers a limit, with -1 above every number |
| Entitlement.CanUse | app/billing/entitlement.py:151-214 | access is given if and only if the subscription is valid, a restricted one asks for a whitelisted feature, and plan, trial or an add-on in force includes it; each refusal has its reason |
| Entitlement.LapseIsFinal | app/billing/entitlement.py:56-80 | a lapsed subscription stays lapsed: every limit is 0 and no feature is usable from then on |
| Entitlement.AccessEnds | app/billing/entitlement.py:56-214 | access ends with SUSPENDED, EXPIRED and ARCHIVED and otherwise exactly at the end of the period, or of the trial; until then limit and features are those of the plan, or of the trial, with the running add-ons on top |
| Entitlement.OneMoreAddon | app/billing/entitlement.py:84-149 | what one more add-on adds to a limit, exactly while it runs |
| Usage.UsageService.CheckAndIncrement | app/billing/usage.py:59-184 | each policy's outcome, the record written and the events published are the specified ones; a refusal changes nothing |
| Usage.UsageIsWhatWasAccepted | app/billing/usage.py:46-57 | over any run, current usage is the sum of the accepted increments |
| Usage.BlockingKeepsTheLimit | app/billing/usage.py:76-79 | if every call blocks, usage ends within the limit |
| Usage.PolicyDecides | app/billing/usage.py:76-135 | past the limit BLOCK and unknown policies refuse and WARN, ALLOW, APPROVED_OVERAGE and DEGRADE accept; within it every call is accepted; an accepted call adds one record of its own |
| Usage.PolicyPublishes | app/billing/usage.py:80-118 | past the limit an accepted call first publishes what its policy is for; everything else it publishes is a crossing |
| Usage.NothingInThePeriod | app/billing/usage.py:46-57 | usage is zero while no record lies in the period |
| Usage.ThresholdFirings | app/billing/usage.py:137-182 | over any run, negative quantities included, each of the 70, 85 and 100 percent events fires as often as usage falls back behind its threshold, and once more if it ends there without having begun there |
| Usage.EachThresholdFiresOnceIff | app/billing/usage.py:137-182 | in a period that begins below it, each fires once if usage ends there and otherwise not, if and only if no call falls back behind it |
| Usage.AgreementSurvivesIff | app/billing/usage.py:137-182 | one call keeps the firings in step with usage if and only if it does not take usage back behind the threshold |
| Usage.EachThresholdFiresOnce | app/billing/usage.py:137-182 | without negative quantities each fires once if usage went from below it to it or past it, and otherwise not |
| Usage.CorrectionsRepeatAThreshold | app/billing/usage.py:137-182 | a negative quantity lets a threshold fire twice |
| Usage.AccessMatchesIncrement | app/billing/entitlement.py:216-257 | metric access and a blocking increment of one agree except on a zero limit with negative usage |
| UsageRace.OvershootIsBounded | app/billing/usage.py:68-135 | over every interleaving of n workers from a stored usage within the limit, usage passes the limit by at most (n - 1) times the smaller of the largest increment and the limit |
| UsageRace.OvershootIsReached | app/billing/usage.py:68-135 | and there is an interleaving from a non-negative usage that does |
| UsageRace.LimitHoldsIffAlone | app/billing/usage.py:68-135 | the limit holds over every interleaving if and only if there is one worker, nothing to add, or no room at all |
| UsageRace.AloneIsIncrement | app/billing/usage.py:68-135 | a worker that is alone checks and writes exactly what the blocking call of the service does |
| Lifecycle.ClientLifecycleManager.TransitionState | app/tenants/lifecycle.py:25-81 | a validated transition writes state, previous state and one audit row; a refused one changes nothing |
| Lifecycle.ClientLifecycleManager.Walk | app/tenants/lifecycle.py:233-254 | the loop over pipeline steps ends where the closed form says, stopping at an unverified payment |
| Lifecycle.ClientLifecycleManager.AdvanceToOnboarding | app/tenants/lifecycle.py:134-195 | early returns, pipeline walk or a single transition, as specified |
| Lifecycle.ClientLifecycleManager.AdvanceToReady | app/tenants/lifecycle.py:197-261 | early returns, pipeline walk or a single transition, as specified |
| Lifecycle.AdvanceToReadyEnds | app/tenants/lifecycle.py:219-254 | from every pipeline state it never raises and ends at READY, or exactly at WAITING_PAYMENT if that is not behind it and the payment is unverified |
| Lifecycle.TransitionTerms | app/tenants/lifecycle.py:25-81 | a transition that goes through writes state, previous state and one audit row |
| Lifecycle.TransitionRefusedIff | app/tenants/lifecycle.py:433-495 | exactly when each of the four refusals is raised: not in the table, no platform owner, gate shut, payment not verified |
| Lifecycle.AdvanceElsewhere | app/tenants/lifecycle.py:134-261 | from ACTIVE an advance changes nothing; from outside the pipeline it is one transition to its goal |
| Lifecycle.ProvisionTerms | app/tenants/provisioning/provisioner.py:178-188 | the state a provisioning run sets |
| Lifecycle.AdvanceToReadyTwice | app/tenants/lifecycle.py:197-261 | calling it twice is calling it once, audit rows included |
| Lifecycle.OnboardingIsOnTheWay | app/tenants/lifecycle.py:134-261 | advancing to onboarding first changes nothing, audit rows included |
| Lifecycle.PaymentCut | app/tenants/lifecycle.py:285-455 | on any run the audit log chains to the current state, a tenant past the payment has the payment step or a shortcut in its log, and WAITING_OWNER and WAITING_CLIENT are unreachable |
| Lifecycle.PaymentStepWasTaken | app/tenants/lifecycle.py:433-455 | with no platform owner and no provisioning, the payment step itself is in the log |
| Lifecycle.PassesByIff | app/tenants/lifecycle.py:433-455 | one operation takes a tenant that has not paid past the payment if and only if it is an owner's recovery from BLOCKED or ERROR to a later state, or a provisioning run that finds it ready or a prospect |
| Lifecycle.PaidForThroughoutIff | app/tenants/lifecycle.py:285-455 | at every point of a run past the payment means the payment step was taken, if and only if no operation before that step was one of these |
| Lifecycle.OrdinaryRun | app/tenants/lifecycle.py:433-441 | without them BLOCKED and ERROR are absorbing |
| Lifecycle.ShortcutsSkipThePayment | app/tenants/provisioning/provisioner.py:178-188 | a provisioning run and an owner's recovery each pass the payment step by |
| Lifecycle.PaymentStepIsVouchedFor | app/tenants/lifecycle.py:239-246 | a payment step is in the log if and only if an advance with billing evidence passed it or somebody asked for PAID by name |
| Lifecycle.EntryIntoActive | app/tenants/lifecycle.py:457-495 | a tenant becomes ACTIVE if and only if it is asked for from a state that allows it with the readiness, subscription and payment gates open |
| Lifecycle.ActiveWentThroughTheGate | app/tenants/lifecycle.py:457-495 | an ACTIVE tenant passed an open gate somewhere on its run |
| PipelinePayment.IsPaymentVerified | app/tenants/lifecycle.py:83-132 | the two queries answer exactly the question of payment evidence |
| PipelinePayment.ConfirmationOpensThePipeline | app/tenants/lifecycle.py:239-246 | once a subscription payment is confirmed, advancing ends at READY from every pipeline state |
| PipelinePayment.NoPaymentNoPipeline | app/tenants/lifecycle.py:239-246 | without any such payment a paying tenant ends at WAITING_PAYMENT if and only if it was not past it |
| Knowledge.BusinessDataService.CreateKnowledgeItem | app/tenants/business_service.py:365-393 | creates a version-1 draft without approval, or refuses an approved status |
| Knowledge.BusinessDataService.UpdateKnowledgeItem | app/tenants/business_service.py:395-442 | the approval guard, the version bump, the reset to DRAFT and the transition check, in that order |
| Knowledge.BusinessDataService.ApproveKnowledgeItem | app/tenants/business_service.py:444-502 | approves a draft and records its title and version |
| Knowledge.BusinessDataService.ArchiveKnowledgeItem | app/tenants/business_service.py:504-521 | archives where the table allows it |
| Knowledge.UpdateTerms | app/tenants/business_service.py:405-442 | an update patches the content; a change of content raises the version by one, and takes an APPROVED or ACTIVE item back to DRAFT without its approval |
| Knowledge.UpdateRefusedIff | app/tenants/business_service.py:395-442 | exactly when an update is refused: no item, a status that needs an approval, a step outside the table, a cleared column |
| Knowledge.ApprovalTerms | app/tenants/business_service.py:444-502 | a draft or an item being validated, and nothing else, can be approved; the approval has its title and version |
| Knowledge.GoesLiveIff | app/tenants/business_service.py:395-442 | an item becomes ACTIVE if and only if that is asked for from APPROVED with the content left alone, or from OUTDATED |
| Knowledge.VersionNamesContent | app/tenants/business_service.py:417-427 | equal versions mean equal title, content and category over an item's whole history |
| Knowledge.ApprovalTrailsByOutdatedEdits | app/tenants/business_service.py:409-432 | an APPROVED, ACTIVE or OUTDATED item has an approval, whose version trails by exactly the edits made while OUTDATED, none while APPROVED |
| Knowledge.ApprovedContentIsInUseIff | app/tenants/business_service.py:417-432 | the version and content in use were approved as they are if and only if there was no such edit |
| Knowledge.UnapprovedContentGoesLive | app/tenants/business_service.py:422-432 | an edit while OUTDATED goes ACTIVE under the old approval |
| Phone.FixedPoints | app/core/phone.py:29-62 | normalisation leaves a string alone if and only if it is 8 to 15 digits not starting with 0 |
| Phone.NormalizeIsIdempotent | app/core/phone.py:29-62 | every result is canonical and normalises to itself |
| Phone.FormattingDoesNotMatter | app/core/phone.py:36-44 | two strings with the same digits normalise alike |
| Phone.LocalAndInternationalAgree | app/core/phone.py:46-53 | a local number and its +62 form normalise alike |
| Phone.SeparatorsDoNotMatter | app/core/phone.py:36-44 | white space, a hyphen, a plus or a parenthesis put anywhere into a number makes no difference |
| Phone.LettersAreRefused | app/core/phone.py:36-44 | any other character that is not a digit is refused |
| Customers.CustomerRepository.GetByPhone | app/repositories/domain.py:167-181 | returns a visible row stored under the number, and None only if there is none |
| Customers.CustomerRepository.GetByExternalId | app/repositories/domain.py:183-197 | the one visible row with the external id, None if there is none, an error if there are several |
| Customers.CustomerRepository.InsertOrFind | app/repositories/domain.py:235-257 | inserts the new row, or after an index violation finds the one stored under the number |
| Customers.NewCustomerTerms | app/repositories/domain.py:206-243 | a new customer has the canonical number if there is one, and the given external id or else that number |
| Customers.CustomerRepository.GetOrCreate | app/repositories/domain.py:199-257 | whatever other transactions do between the two lookups and before the insert: exactly when the call raises which error, and exactly when what it gives is stored under its number rather than found by its external id |
| Customers.LookupsDecide | app/repositories/domain.py:213-233 | an ambiguous external id and an identity conflict are raised exactly when there is one, and a customer that is given is stored under the number if and only if the number was seen, or no external id was, or the one seen has the number |
| Customers.NothingInBetween | app/repositories/domain.py:213-233 | with nobody in between, if and only if the call sees the number or sees no customer with its external id |
| Customers.OneCustomerPerNumber | migrations/versions/2026_09_15_0000-add_r3_whatsapp_db_invariants.py:66-74 | over every interleaving, rows whose numbers normalise alike are one row |
| Customers.SameNumberSameCustomerIff | app/repositories/domain.py:206-257 | of two committed calls with numbers stored alike, the first given the customer stored under the number, both were given the same customer if and only if the second was given that one too |
| Customers.WithoutExternalIds | app/repositories/domain.py:206-230 | without external ids every call is answered by number |
| Customers.OtherwiseTheExternalId | app/repositories/domain.py:217-233 | a committed call not answered by number was given a customer of its tenant with its external id |
| Customers.ExternalIdHidesTheNumber | app/repositories/domain.py:229-243 | a number given along with a known external id is not stored, and asking for it alone creates a second customer |
| Customers.LookAgainFinds | app/repositories/domain.py:246-252 | the lookup after an index violation always finds the row |

## Left out

- BlockingKeepsTheLimit: about calls one after another; `UsageRace` says what several workers can do.
- LedgerInvariants.RunKeepsInv: assumes fresh row ids and invoices for the tenant's own subscription or for none, which both callers of `create_invoice` ensure (app/api/v1/billing.py:195-206, 258-285).
- CommittedTables: runs contain only those cancellations that `CancelKeepsInvIff` shows to be harmless; `SoundThroughoutIff` is the statement for all cancellations.
- EachThresholdFiresOnce: for quantities that are not negative; `ThresholdFirings` is the statement for all.
- OneActivationPerPayment: assumes that only confirmations sign history rows as the payment provider.
- AssessmentNeverMeetsABadStatus: for positive amounts, which no code checks; `BadStatusIff` is the statement for all amounts.
- PositiveRefundsKeepTheStatusTrue: for positive amounts; `StatusTrueIff` is the statement for all amounts.
- ProviderAgreesIffNoLateCrash: for positive amounts; `ProviderTotal` is the statement for all amounts.
- PriceFollowsPlan: about a fixed catalogue; prices change only by seeding, see `SeedingIsNeutralIff`.
- ChangePlan: the conflict report of a downgrade and the restricted_mode flag it leaves in the metadata (app/billing/subscription.py:236-250) are not part of this model.
- PaymentCut: the log of `Lifecycle` has lifecycle and provisioning rows only; other audit actions are not part of this model.
- ResultsAgree: a result used in a transaction that is rolled back afterwards is gone with it and is not compared.
- One subscription per tenant: no unique index says so (app/database/models/billing.py:111-114) and creation takes no lock, so two first activations at once can leave two rows, after which looking one up raises.
- An adapter that commits the session it is handed: none does; the `Save` step and `EarlyCommitUsesUpTheKey` keep that case as a warning to authors of adapters.
- Approval decisions come from outside: any awaiting approval may be approved or closed at any time.
- Different webhooks for one payment arriving at the same moment: the model takes them one after another; `DeliveryRace` is about one success notification delivered several times to the Midtrans endpoint, with no other request on that ledger meanwhile.
- Several payment providers for one tenant: the unique index on provider payment ids is modelled for one provider.
- Row objects shared between services in one session: rows are values in the working copy, so aliasing is not modelled.
- Invoice numbers, due dates, billing periods on invoices and setup fees: carried along unchanged.
- Event publication outside usage metering: failures are swallowed and nothing reads them back.
- AI credits per token count (app/billing/usage.py:28-33): one floor division.
- Rounding of usage ratios in floating point: thresholds are compared by cross-multiplied integers.
- Connecting and disconnecting integrations, where CONNECTING becomes ACTIVE without an edge in its own table (app/integrations/service.py:231): one assignment.
- Executions without an idempotency key: a single insert with no protocol.
- Conversations found or created per customer and channel: the same protocol as customers, with another index.
- Status strings outside the enumerations, except in the tenant and knowledge tables, where they are modelled.
- Deadlocks between transactions that insert several phone numbers: the database aborts one of them, which is a rollback here.
- Adapters, payment providers, cryptography, HTTP routing, the AI agents and analytics: external or without state of this kind.
