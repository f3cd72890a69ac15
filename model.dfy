/**
 * The data the subscription webhook handler works on: the webhook payload, the
 * gateway entities it fetches, the WooCommerce records it reads and changes, the
 * calls it issues and the way each handler ends.
 */
module Model {
  import opened Wrappers

  type PaymentId = string
  type InvoiceId = string
  type OrderId = string
  /** A gateway (Razorpay) subscription id. */
  type SubscriptionId = string
  /** A WooCommerce subscription id (a key of wcs_get_subscriptions_for_order's result). */
  type WcSubscriptionId = string

  /** `payload.payment.entity`: the id, the optional `invoice_id` and `notes.woocommerce_order_id`. */
  datatype PaymentEntity = PaymentEntity(id: PaymentId, invoiceId: Option<InvoiceId>, orderId: OrderId)

  /** A webhook delivery: its `event` name and the payment entity of its payload. */
  datatype Payload = Payload(event: string, entity: PaymentEntity)

  /** What the gateway returns for a payment fetch; only its `status` string is read. */
  datatype Payment = Payment(status: string)

  /** What the gateway returns for an invoice fetch; `subscription_id` may be null. */
  datatype Invoice = Invoice(subscriptionId: Option<SubscriptionId>)

  /** What the gateway returns for a subscription fetch: its counts and `notes.woocommerce_order_id`. */
  datatype Subscription = Subscription(totalCount: int, paidCount: int, orderId: OrderId)

  /**
   * The gateway's answers to the requests of one delivery: each fetch either
   * returns the entity or throws with a message; a capture either succeeds or throws.
   */
  datatype Responses = Responses(
    payment: Result<Payment, string>,
    invoice: Result<Invoice, string>,
    subscription: Result<Subscription, string>,
    captureSucceeds: bool)

  datatype OrderStatus = Pending | Paid(paymentId: PaymentId) | FailedPayment

  /**
   * A WooCommerce order as far as the handler sees it: whether it still needs
   * payment, the amount getOrderAmountAsInteger gives for it, and its status.
   */
  datatype Order = Order(needsPayment: bool, amount: int, status: OrderStatus)

  /**
   * The WooCommerce side: orders, the subscriptions attached to each order (in
   * the order wcs_get_subscriptions_for_order lists them) and each
   * subscription's completed payment count.
   */
  datatype State = State(
    orders: map<OrderId, Order>,
    subscriptionsOf: map<OrderId, seq<WcSubscriptionId>>,
    completed: map<WcSubscriptionId, nat>)
  {
    /** Every subscription listed for an order has a completed payment count. */
    ghost predicate Valid() {
      forall o, i :: o in subscriptionsOf && 0 <= i < |subscriptionsOf[o]| ==> subscriptionsOf[o][i] in completed
    }

    /** wcs_get_subscriptions_for_order: the order's subscriptions, none for an unknown order. */
    function SubscriptionsFor(orderId: OrderId): seq<WcSubscriptionId> {
      if orderId in subscriptionsOf then subscriptionsOf[orderId] else []
    }

    /**
     * The effect assumed for updateOrder (which is not part of this model): a
     * successful payment completes the order, so it no longer needs payment;
     * a failed one marks it failed and leaves it payable.
     */
    function WithOrderUpdated(orderId: OrderId, success: bool, paymentId: PaymentId): (t: State)
      requires orderId in orders
      ensures t.subscriptionsOf == subscriptionsOf && t.completed == completed
      ensures t.orders.Keys == orders.Keys
      ensures forall o :: o in orders && o != orderId ==> t.orders[o] == orders[o]
      ensures t.orders[orderId].amount == orders[orderId].amount
      ensures success ==> !t.orders[orderId].needsPayment && t.orders[orderId].status == Paid(paymentId)
      ensures !success ==> t.orders[orderId].needsPayment == orders[orderId].needsPayment
                           && t.orders[orderId].status == FailedPayment
    {
      var order := orders[orderId];
      var updated := if success then order.(needsPayment := false, status := Paid(paymentId))
                     else order.(status := FailedPayment);
      this.(orders := orders[orderId := updated])
    }

    /**
     * The effect assumed for a subscription's payment_complete after
     * prepare_renewal (neither is part of this model): the completed payment
     * count rises by one.
     */
    function WithPaymentCompleted(wcId: WcSubscriptionId): (t: State)
      requires wcId in completed
      requires Valid()
      ensures t.Valid()
      ensures t.orders == orders && t.subscriptionsOf == subscriptionsOf
      ensures t.completed.Keys == completed.Keys
      ensures t.completed[wcId] == completed[wcId] + 1
      ensures forall x :: x in completed && x != wcId ==> t.completed[x] == completed[x]
    {
      this.(completed := completed[wcId := completed[wcId] + 1])
    }
  }

  /** The structured entries handed to write_log. */
  datatype LogEntry =
    | FetchFailed(message: string, data: string, event: Option<string>)
    | MultipleSubscriptions

  /** Every call the handler issues to the gateway, to WooCommerce or to the log, in order. */
  datatype Call =
    | LoadOrder(orderId: OrderId)
    | FetchPayment(paymentId: PaymentId)
    | FetchInvoice(invoiceId: InvoiceId)
    | FetchSubscription(subscriptionId: SubscriptionId)
    | Capture(paymentId: PaymentId, amount: int)
    | UpdateOrder(orderId: OrderId, success: bool, message: string, paymentId: PaymentId, webhook: bool)
    | PrepareRenewal(wcSubscriptionId: WcSubscriptionId)
    | PaymentComplete(wcSubscriptionId: WcSubscriptionId, paymentId: PaymentId)
    | MarkFailed(orderId: OrderId)
    | Log(entry: LogEntry)
  {
    /** Calls that change the gateway's or WooCommerce's records. */
    predicate Mutates() {
      Capture? || UpdateOrder? || PrepareRenewal? || PaymentComplete? || MarkFailed?
    }
  }

  /** No call in the sequence changes a record. */
  predicate NoMutation(calls: seq<Call>) {
    forall i :: 0 <= i < |calls| ==> !calls[i].Mutates()
  }

  /**
   * How a handler ends: PHP `exit`, a void `return`, a returned diagnostic
   * string, or an uncaught PHP error that ends the request.
   */
  datatype Outcome = Exit | Return | ErrorString(message: string) | Fatal
}
