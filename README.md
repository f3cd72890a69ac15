# Razorpay subscription webhook: reconciliation model

A Dafny model of the webhook handler of a WooCommerce plugin for Razorpay
subscriptions (class `RZP_Subscription_Webhook`). On a `payment.authorized`
or `payment.failed` delivery it finds out whether the payment belongs to a
subscription invoice or to a plain order. It fetches the authoritative
payment, invoice or subscription from the gateway. Then it settles the order,
captures the payment, commits one subscription renewal, or marks the
subscription's order failed.

The model has three layers.

- **Pure rules** (module `Rules`): PHP's `empty()` on the invoice's
  subscription id; the payment-success rule on `status` and the merchant's
  `payment_action`; the renewal rule on the local completed count against
  `total_count` and `paid_count`; the diagnostic string for a failed subscription fetch.
- **What a delivery does** (module `Reconcile`): one function per handler. Each
  maps the WooCommerce state before the delivery, the setting, the payload
  and the gateway's answers to a `Run`. A run is how the handler ends (`Exit`
  for PHP `exit`, `Return`, `ErrorString` for the returned diagnostic,
  `Fatal` for an uncaught PHP error), the calls it issued in order, and the
  state after. The lemmas there and in `Replay` state what the handler promises.
- **The handler as imperative code** (modules `Store` and `Handler`): class
  `WooStore` holds the orders, each order's subscriptions and each
  subscription's completed payment count. Class `SubscriptionWebhook` has one
  method per PHP method, plus `ProcessOrderPayment`, which is not a PHP method:
  it holds the plain-order half of `paymentAuthorized` (its lines 36-87). Each method appends to its `calls` trace, updates the
  store, and is proved to end exactly as the matching `Reconcile` function says.
  The exception is `ProcessSubscriptionFailed`, which has no `Reconcile`
  counterpart: its own ensures give its one call and its outcome.
  `Scenarios` drives the object through three concrete deliveries.

Every gateway fetch and the capture are inputs (`Responses`). Each fetch either
answers or fails with the exception's message. The capture only succeeds or
throws (`captureSucceeds`); its message is not modelled, since an uncaught
capture exception ends the request. The fetches, the capture, the
order load, the WooCommerce operations that change records, and the log
entries appear in the trace as `Call`s. The reads `needs_payment()`,
`wcs_get_subscriptions_for_order`, `get_completed_payment_count()` and
`getOrderAmountAsInteger` happen but leave no trace.

The model follows the code as written in these details:
- The order reference is `notes.woocommerce_order_id`.
- The invoice-fetch log entry carries a null event, because `getInvoice`
  reads an undefined `$data`.
- `updateOrder` always receives the message "The payment has failed.".
- A subscription id of "0" on the invoice counts as empty (PHP `empty()`); the invoice id itself is only tested with `isset`, so an invoice id "0" is fetched.

The one exception is the multiple-subscription guard. The code as written
never fires it (see Findings). The model proves that, and it uses the guard
the code describes.

## Model

| member | source | states |
|---|---|---|
| Rules.SubscriptionIdOf | includes/razorpay-subscription-webhook.php:28-30 | an invoice names a subscription exactly when PHP's `empty()` is false for its id (null, "" and "0" are empty), and the id is then the invoice's own |
| Rules.Settle | includes/razorpay-subscription-webhook.php:66-83 | capture is issued exactly for status "authorized" under the "capture" setting; success holds exactly for "captured" or that capture case; a capture always means success |
| Rules.DecideRenewal | includes/razorpay-subscription-webhook.php:215-228 | fully paid exactly when the completed count equals total_count; next renewal exactly when it does not and completed + 1 equals paid_count; mismatch otherwise |
| Rules.CommittedSnapshotIsNotCommittedAgain | includes/razorpay-subscription-webhook.php:215-228 | after a committed renewal the same snapshot with the raised count is fully paid or a mismatch, never another renewal |
| Rules.GuardAsWrittenNeverFires | includes/razorpay-subscription-webhook.php:192-199 | the guard as written, a count of the first subscription object, is false for every list of subscriptions |
| Rules.TwoSubscriptionsSlipPastWrittenGuard | includes/razorpay-subscription-webhook.php:192-208 | for an order with two subscriptions the intended guard fires while the written one does not |
| Rules.SubscriptionFetchError | includes/razorpay-subscription-webhook.php:160-164 | the diagnostic is the fixed "RAZORPAY ERROR: ..." prefix, the exception's message and a closing quote |
| Rules.SubscriptionFetchErrorKeepsMessage | includes/razorpay-subscription-webhook.php:162-163 | the diagnostic determines the message: equal diagnostics come from equal messages |
| Model.State.WithOrderUpdated | includes/razorpay-subscription-webhook.php:85 | updating an order touches only that order; success completes it (no longer needs payment, paid with the payment id), failure marks it failed |
| Model.State.WithPaymentCompleted | includes/razorpay-subscription-webhook.php:225-227 | a completed renewal raises exactly that subscription's count by one and keeps the state valid |
| Reconcile.SubscriptionSuccessRun | includes/razorpay-subscription-webhook.php:185-229 | processSubscriptionSuccess leaves orders and subscription lists alone, changes a count only by one and only up to the snapshot's paid_count, changes state only when it returns, and issues no order-path call |
| Reconcile.SubscriptionRun | includes/razorpay-subscription-webhook.php:148-176 | processSubscription first fetches the subscription, returns the diagnostic exactly when that fetch fails, never touches orders, and changes no state when success is false |
| Reconcile.InvoiceCalls | includes/razorpay-subscription-webhook.php:117-137 | getInvoice issues the fetch, and on failure one log entry, and changes nothing |
| Reconcile.OrderRun | includes/razorpay-subscription-webhook.php:36-87 | the order path first loads the order and changes no subscription count and no order but the payload's |
| Reconcile.AuthorizedRun | includes/razorpay-subscription-webhook.php:13-88 | paymentAuthorized keeps the store valid and the subscription lists unchanged; a returned diagnostic comes with no change at all |
| Reconcile.FailedRun | includes/razorpay-subscription-webhook.php:95-115 | paymentFailed changes none of the modelled records (the failure marking is only the MarkFailed call), never dies, and issues no order-path or renewal call |
| Reconcile.SubscriptionPathFirst | includes/razorpay-subscription-webhook.php:21-33 | an invoice naming a subscription sends paymentAuthorized to processSubscription(paymentId, subscriptionId, true), and the order is never loaded |
| Reconcile.OrderPathOtherwise | includes/razorpay-subscription-webhook.php:21-36 | with no invoice id, or an invoice without a subscription id, paymentAuthorized takes the order path |
| Reconcile.SettledOrderIsNoop | includes/razorpay-subscription-webhook.php:36-43 | an order that no longer needs payment ends with Return after only loading it: no payment fetch, capture or update |
| Reconcile.PaymentFetchFailureAborts | includes/razorpay-subscription-webhook.php:45-62 | a failed payment fetch logs {message, payment id, event} and exits with nothing changed |
| Reconcile.SuccessRule | includes/razorpay-subscription-webhook.php:64-87 | after a successful fetch the calls are load, fetch, a capture for exactly the order's amount only in the authorized + capture case, then one updateOrder(success, "The payment has failed.", paymentId, true); the state is that update's |
| Reconcile.CaptureFailureLeavesOrder | includes/razorpay-subscription-webhook.php:73-83 | a capture that throws ends the request after the capture call with the order not updated |
| Reconcile.OrderCallDiscipline | includes/razorpay-subscription-webhook.php:64-87 | on the order path every capture is for an authorized payment under the capture setting and the order's amount, and an updateOrder is only the last call, with the payload's ids and the webhook flag |
| Reconcile.CaptureAndUpdateDiscipline | includes/razorpay-subscription-webhook.php:13-88 | the same holds over every paymentAuthorized delivery, the subscription path included |
| Reconcile.SettledOrderReplayIsNoop | includes/razorpay-subscription-webhook.php:38-43 | once a delivery has completed the order, replaying it only loads the order and returns |
| Reconcile.InvoiceFetchFailureAborts | includes/razorpay-subscription-webhook.php:117-134 | a failed invoice fetch logs {message, invoice id, null event} and both handlers exit with nothing changed |
| Reconcile.FailedPaymentNeedsSubscription | includes/razorpay-subscription-webhook.php:95-115 | paymentFailed delegates to processSubscription(..., false) exactly when the invoice names a subscription, and otherwise exits with no changing call |
| Reconcile.SubscriptionFetchFailureReturnsDiagnostic | includes/razorpay-subscription-webhook.php:156-164 | a failed subscription fetch returns the diagnostic string, without exiting and with nothing changed |
| Reconcile.UnsuccessfulSubscriptionMarksOrderFailed | includes/razorpay-subscription-webhook.php:166-171 | with success false the order named in the subscription's notes is marked failed and nothing else happens |
| Reconcile.SuccessfulSubscriptionProcessesRenewal | includes/razorpay-subscription-webhook.php:166-175 | with success true the renewal of the notes' order is processed and the request then exits |
| Reconcile.GuardAbortsBeforeRenewal | includes/razorpay-subscription-webhook.php:197-208 | more than one subscription on the order: one log entry, exit, no renewal prepared, no payment completed |
| Reconcile.RenewalRule | includes/razorpay-subscription-webhook.php:210-228 | on the order's one subscription: count == total_count changes nothing even if paid_count is count + 1; else count + 1 == paid_count prepares the renewal and completes the payment once; else nothing |
| Reconcile.NoSubscriptionIsFatal | includes/razorpay-subscription-webhook.php:190-210 | an order without subscriptions reaches a method call on null: the request dies with nothing changed |
| Reconcile.RenewalReplayIsNoop | includes/razorpay-subscription-webhook.php:215-228 | after a committed renewal the same snapshot, with any payment id, changes nothing |
| Replay.DeliverAll | includes/razorpay-subscription-webhook.php:210-228 | any sequence of renewal deliveries keeps orders and subscription lists and never lowers a count nor raises it by more than the number of deliveries |
| Replay.NeverAheadOfGateway | includes/razorpay-subscription-webhook.php:219-227 | duplicated or out-of-order deliveries never push a completed count above a bound that every delivered paid_count respects |
| Replay.StableUnderReplays | includes/razorpay-subscription-webhook.php:215-219 | a state one delivery leaves unchanged stays unchanged under any number of its replays |
| Replay.RepeatedDeliveryCommitsOnce | includes/razorpay-subscription-webhook.php:215-228 | delivering one webhook n >= 1 times has exactly the effect of delivering it once |
| Replay.InOrderDeliveriesAllCount | includes/razorpay-subscription-webhook.php:219-227 | renewals delivered once each and in order, paid_count rising by one, are each counted |
| Store.WooStore.NeedsPayment | includes/razorpay-subscription-webhook.php:40 | the order's needs-payment flag |
| Store.WooStore.SubscriptionsForOrder | includes/razorpay-subscription-webhook.php:190 | the order's subscriptions, none for an unknown order, each with a completed count |
| Store.WooStore.CompletedPaymentCount | includes/razorpay-subscription-webhook.php:210 | the completed payment count of that subscription in the store's snapshot |
| Store.WooStore.UpdateOrder | includes/razorpay-subscription-webhook.php:85 | the store afterwards is WithOrderUpdated of the store before |
| Store.WooStore.PaymentComplete | includes/razorpay-subscription-webhook.php:225-227 | the store afterwards is WithPaymentCompleted of the store before |
| Handler.SubscriptionWebhook.PaymentAuthorized | includes/razorpay-subscription-webhook.php:13-88 | outcome, appended calls and new store are those of AuthorizedRun on the old store |
| Handler.SubscriptionWebhook.ProcessOrderPayment | includes/razorpay-subscription-webhook.php:36-87 | outcome, appended calls and new store are those of OrderRun on the old store |
| Handler.SubscriptionWebhook.PaymentFailed | includes/razorpay-subscription-webhook.php:95-115 | outcome, appended calls and new store are those of FailedRun on the old store |
| Handler.SubscriptionWebhook.GetInvoice | includes/razorpay-subscription-webhook.php:117-137 | appends InvoiceCalls and yields the invoice, or nothing when the fetch failed and the request exits |
| Handler.SubscriptionWebhook.ProcessSubscription | includes/razorpay-subscription-webhook.php:148-176 | outcome, appended calls and new store are those of SubscriptionRun on the old store |
| Handler.SubscriptionWebhook.ProcessSubscriptionSuccess | includes/razorpay-subscription-webhook.php:185-229 | outcome, appended calls and new store are those of SubscriptionSuccessRun on the old store |
| Handler.SubscriptionWebhook.ProcessSubscriptionFailed | includes/razorpay-subscription-webhook.php:236-239 | one failure-marking call for the order, then a void return |

## Findings

| source | as written | input that shows it | evidently intended | confidence | as-written member | corrected member |
|---|---|---|---|---|---|---|
| includes/razorpay-subscription-webhook.php:197-199 | the subscription list is replaced by its first element before `count()`. Under PHP 7, `count()` of one non-Countable object is 1 and of null is 0, so `count(...) > 1` never holds | an order with two subscriptions, `["wc_1", "wc_2"]`: the renewal goes to the first one and nothing is logged | count the order's subscriptions before taking the first; log and exit when there is more than one | not executed; medium (PHP 8 throws a TypeError from `count()` instead; the log text "subscription products" could also refer to line items of one subscription) | Rules.GuardAsWrittenNeverFires | Reconcile.GuardAbortsBeforeRenewal |

## Left out

- Webhook entry point, event dispatch and signature verification: these are in the base class `RZP_Webhook`, which is not part of this model.
- Razorpay SDK: `payment->fetch`, `capture`, `invoice->fetch` and `subscription->fetch` are inputs (`Responses`) and calls in the trace. The payment that a capture returns is not used by the handler, so it is not modelled.
- WooCommerce internals: `WC_Order`, `wcs_get_subscriptions_for_order`, `prepare_renewal`, `payment_complete`, `process_subscription_payment_failure_on_order` and the gateway's `updateOrder` are abstract store operations. Their effects are assumptions: `updateOrder` completes or fails the order, and `payment_complete` raises the completed count by one. `prepare_renewal` and the failure marking are recorded only as calls, because what they change inside WooCommerce is not visible here.
- `getOrderAmountAsInteger` is not part of this model. The integer amount it would give is stored with each order.
- `write_log`: only the structured entry is recorded, not its format or destination.
- PHP `exit` and uncaught errors become outcomes (`Exit`, `Fatal`), not process termination. `Fatal` covers an unknown order (`new WC_Order` throws), an order with no subscription (a method called on null) and a capture that throws.
- Missing payload fields (no `notes.woocommerce_order_id`, no subscription notes) are not modelled. Each of these reads as null in PHP. The model takes them as present.
- PHP loose typing: counts are integers and compared with `===` as integers. Non-integer `total_count`/`paid_count` values are not modelled.
- Concurrency between deliveries is not modelled. Two deliveries served at once by separate PHP workers can both read `get_completed_payment_count()` (line 210) before either `payment_complete` (line 227) runs, and then both commit a renewal. The model handles deliveries one after another, so Replay.RepeatedDeliveryCommitsOnce, Reconcile.RenewalReplayIsNoop and Store.WooStore.PaymentComplete hold only for deliveries handled sequentially; nothing in the source guards against the interleaved case.
