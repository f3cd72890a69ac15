/** The WooCommerce records behind the handler, as an object the handler updates in place. */
module Store {
  import opened Model

  class WooStore {
    var orders: map<OrderId, Order>
    var subscriptionsOf: map<OrderId, seq<WcSubscriptionId>>
    var completed: map<WcSubscriptionId, nat>

    /** The records as a value. */
    function Snapshot(): State
      reads this
    {
      State(orders, subscriptionsOf, completed)
    }

    ghost predicate Valid()
      reads this
    {
      Snapshot().Valid()
    }

    constructor (initial: State)
      requires initial.Valid()
      ensures Valid() && Snapshot() == initial
    {
      orders, subscriptionsOf, completed := initial.orders, initial.subscriptionsOf, initial.completed;
    }

    /** `$order->needs_payment()`. */
    function NeedsPayment(orderId: OrderId): (b: bool)
      requires orderId in orders
      reads this
      ensures b <==> Snapshot().orders[orderId].needsPayment
    {
      orders[orderId].needsPayment
    }

    /** wcs_get_subscriptions_for_order. */
    function SubscriptionsForOrder(orderId: OrderId): (subs: seq<WcSubscriptionId>)
      reads this
      ensures Valid() ==> forall i :: 0 <= i < |subs| ==> subs[i] in completed
    {
      Snapshot().SubscriptionsFor(orderId)
    }

    /** `get_completed_payment_count()`. */
    function CompletedPaymentCount(wcId: WcSubscriptionId): (n: nat)
      requires wcId in completed
      reads this
      ensures n == Snapshot().completed[wcId]
    {
      completed[wcId]
    }

    /** updateOrder's effect on the order's records. */
    method UpdateOrder(orderId: OrderId, success: bool, paymentId: PaymentId)
      requires Valid() && orderId in orders
      modifies this
      ensures Valid()
      ensures Snapshot() == old(Snapshot()).WithOrderUpdated(orderId, success, paymentId)
    {
      var order := orders[orderId];
      if success {
        orders := orders[orderId := order.(needsPayment := false, status := Paid(paymentId))];
      } else {
        orders := orders[orderId := order.(status := FailedPayment)];
      }
    }

    /** prepare_renewal followed by payment_complete: one more completed payment. */
    method PaymentComplete(wcId: WcSubscriptionId)
      requires Valid() && wcId in completed
      modifies this
      ensures Valid()
      ensures Snapshot() == old(Snapshot()).WithPaymentCompleted(wcId)
    {
      completed := completed[wcId := completed[wcId] + 1];
    }
  }
}
