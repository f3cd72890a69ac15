/**
 * The subscription webhook handler: the payment.authorized and payment.failed
 * handlers and their helpers, as methods that issue calls in order and update
 * the WooCommerce store. Each is proved to do exactly what the matching
 * function of the Reconcile module describes.
 */
module Handler {
  import opened Wrappers
  import opened Model
  import opened Rules
  import opened Reconcile
  import opened Store

  class SubscriptionWebhook {
    /** The merchant's `payment_action` setting. */
    const paymentAction: string
    const store: WooStore
    /** Every call issued so far, in order. */
    var calls: seq<Call>

    constructor (paymentAction: string, store: WooStore)
      ensures this.paymentAction == paymentAction && this.store == store && calls == []
    {
      this.paymentAction := paymentAction;
      this.store := store;
      calls := [];
    }

    /** paymentAuthorized. */
    method PaymentAuthorized(data: Payload, gw: Responses) returns (outcome: Outcome)
      requires store.Valid()
      modifies this, store
      ensures store.Valid()
      ensures var r := AuthorizedRun(old(store.Snapshot()), paymentAction, data, gw);
              outcome == r.outcome && calls == old(calls) + r.calls && store.Snapshot() == r.post
    {
      var paymentId := data.entity.id;
      if data.entity.invoiceId.Some? {
        var invoiceId := data.entity.invoiceId.value;
        var invoice := GetInvoice(invoiceId, gw.invoice);
        if invoice.None? {
          return Exit;
        }
        if !PhpEmpty(invoice.value.subscriptionId) {
          var subscriptionId := invoice.value.subscriptionId.value;
          outcome := ProcessSubscription(paymentId, subscriptionId, true, gw.subscription);
          return;
        }
      }

      outcome := ProcessOrderPayment(data, gw);
    }

    /** The plain-order half of paymentAuthorized (its lines after the invoice test). */
    method ProcessOrderPayment(data: Payload, gw: Responses) returns (outcome: Outcome)
      requires store.Valid()
      modifies this, store
      ensures store.Valid()
      ensures var r := OrderRun(old(store.Snapshot()), paymentAction, data, gw);
              outcome == r.outcome && calls == old(calls) + r.calls && store.Snapshot() == r.post
    {
      var paymentId := data.entity.id;
      var orderId := data.entity.orderId;
      calls := calls + [LoadOrder(orderId)];
      if orderId !in store.orders {
        // `new WC_Order` throws for an unknown order
        return Fatal;
      }
      if !store.NeedsPayment(orderId) {
        return Return;
      }

      calls := calls + [FetchPayment(paymentId)];
      if gw.payment.Failure? {
        calls := calls + [Log(FetchFailed(gw.payment.error, paymentId, Some(data.event)))];
        return Exit;
      }
      var payment := gw.payment.value;
      var amount := store.orders[orderId].amount;

      var success := false;
      if payment.status == "captured" {
        success := true;
      } else if payment.status == "authorized" && paymentAction == CAPTURE_ACTION {
        calls := calls + [Capture(paymentId, amount)];
        if !gw.captureSucceeds {
          // the capture's exception is not caught
          return Fatal;
        }
        success := true;
      }

      store.UpdateOrder(orderId, success, paymentId);
      calls := calls + [UpdateOrder(orderId, success, FAILURE_MESSAGE, paymentId, true)];
      return Exit;
    }

    /** paymentFailed. */
    method PaymentFailed(data: Payload, gw: Responses) returns (outcome: Outcome)
      requires store.Valid()
      modifies this, store
      ensures store.Valid()
      ensures var r := FailedRun(old(store.Snapshot()), data, gw);
              outcome == r.outcome && calls == old(calls) + r.calls && store.Snapshot() == r.post
    {
      var paymentId := data.entity.id;
      if data.entity.invoiceId.Some? {
        var invoiceId := data.entity.invoiceId.value;
        var invoice := GetInvoice(invoiceId, gw.invoice);
        if invoice.None? {
          return Exit;
        }
        if !PhpEmpty(invoice.value.subscriptionId) {
          var subscriptionId := invoice.value.subscriptionId.value;
          outcome := ProcessSubscription(paymentId, subscriptionId, false, gw.subscription);
          return;
        }
      }
      return Exit;
    }

    /**
     * getInvoice: None stands for the `exit` after a failed fetch, which the
     * callers carry out by ending with Exit.
     */
    method GetInvoice(invoiceId: InvoiceId, fetched: Result<Invoice, string>) returns (invoice: Option<Invoice>)
      modifies this
      ensures calls == old(calls) + InvoiceCalls(invoiceId, fetched)
      ensures invoice == if fetched.Success? then Some(fetched.value) else None
    {
      calls := calls + [FetchInvoice(invoiceId)];
      match fetched
      case Failure(message) =>
        calls := calls + [Log(FetchFailed(message, invoiceId, None))];
        invoice := None;
      case Success(v) =>
        invoice := Some(v);
    }

    /** processSubscription. */
    method ProcessSubscription(paymentId: PaymentId, subscriptionId: SubscriptionId, success: bool,
                               fetched: Result<Subscription, string>) returns (outcome: Outcome)
      requires store.Valid()
      modifies this, store
      ensures store.Valid()
      ensures var r := SubscriptionRun(old(store.Snapshot()), paymentId, subscriptionId, success, fetched);
              outcome == r.outcome && calls == old(calls) + r.calls && store.Snapshot() == r.post
    {
      calls := calls + [FetchSubscription(subscriptionId)];
      if fetched.Failure? {
        return ErrorString(SubscriptionFetchError(fetched.error));
      }
      var subscription := fetched.value;
      var orderId := subscription.orderId;
      if !success {
        outcome := ProcessSubscriptionFailed(orderId);
        return;
      }
      outcome := ProcessSubscriptionSuccess(orderId, subscription, paymentId);
      if outcome != Fatal {
        outcome := Exit;
      }
    }

    /** processSubscriptionSuccess. */
    method ProcessSubscriptionSuccess(orderId: OrderId, subscription: Subscription, paymentId: PaymentId)
      returns (outcome: Outcome)
      requires store.Valid()
      modifies this, store
      ensures store.Valid()
      ensures var r := SubscriptionSuccessRun(old(store.Snapshot()), orderId, subscription, paymentId);
              outcome == r.outcome && calls == old(calls) + r.calls && store.Snapshot() == r.post
    {
      var subs := store.SubscriptionsForOrder(orderId);
      // The source counts the first subscription object here, so its guard
      // never fires (Rules.GuardAsWritten); this is the guard it describes.
      if MoreThanOneSubscription(subs) {
        calls := calls + [Log(MultipleSubscriptions)];
        return Exit;
      }
      if |subs| == 0 {
        // a method is called on the null first subscription
        return Fatal;
      }
      var wcId := subs[0];
      var paymentCount := store.CompletedPaymentCount(wcId);
      if paymentCount == subscription.totalCount {
        return Return;
      } else if paymentCount + 1 == subscription.paidCount {
        calls := calls + [PrepareRenewal(wcId)];
        store.PaymentComplete(wcId);
        calls := calls + [PaymentComplete(wcId, paymentId)];
      }
      return Return;
    }

    /** processSubscriptionFailed. */
    method ProcessSubscriptionFailed(orderId: OrderId) returns (outcome: Outcome)
      modifies this
      ensures outcome == Return && calls == old(calls) + [MarkFailed(orderId)]
    {
      calls := calls + [MarkFailed(orderId)];
      return Return;
    }
  }
}
