/**
 * Many renewal deliveries in a row. The gateway delivers webhooks at least
 * once and in no guaranteed order; the renewal rule of
 * processSubscriptionSuccess is what keeps WooCommerce's completed payment
 * count from running ahead of the gateway's `paid_count`.
 */
module Replay {
  import opened Model
  import opened Rules
  import opened Reconcile

  /** One renewal webhook: the subscription snapshot the handler fetches, and the payment it settles. */
  datatype Delivery = Delivery(sub: Subscription, paymentId: PaymentId)

  function Step(s: State, d: Delivery): (t: State)
    requires s.Valid()
  {
    SubscriptionSuccessRun(s, d.sub.orderId, d.sub, d.paymentId).post
  }

  /** The WooCommerce state after processSubscriptionSuccess has handled each delivery in turn. */
  function DeliverAll(s: State, deliveries: seq<Delivery>): (t: State)
    requires s.Valid()
    ensures t.Valid()
    ensures t.orders == s.orders && t.subscriptionsOf == s.subscriptionsOf
    ensures t.completed.Keys == s.completed.Keys
    ensures forall x :: x in s.completed ==> s.completed[x] <= t.completed[x] <= s.completed[x] + |deliveries|
    decreases |deliveries|
  {
    if deliveries == [] then s
    else DeliverAll(Step(s, deliveries[0]), deliveries[1..])
  }

  /**
   * No sequence of deliveries, duplicated or out of order, raises a completed
   * count above a bound that every delivered `paid_count` respects.
   */
  lemma {:induction false} NeverAheadOfGateway(s: State, deliveries: seq<Delivery>, x: WcSubscriptionId, bound: int)
    requires s.Valid()
    requires x in s.completed && s.completed[x] <= bound
    requires forall i :: 0 <= i < |deliveries| ==> deliveries[i].sub.paidCount <= bound
    ensures DeliverAll(s, deliveries).completed[x] <= bound
    decreases |deliveries|
  {
    if deliveries != [] {
      var t := Step(s, deliveries[0]);
      assert t.completed[x] <= bound;
      forall i | 0 <= i < |deliveries[1..]|
        ensures deliveries[1..][i].sub.paidCount <= bound
      {
        assert deliveries[1..][i] == deliveries[i + 1];
      }
      NeverAheadOfGateway(t, deliveries[1..], x, bound);
    }
  }

  /** A state that one delivery leaves unchanged is left unchanged by any number of its replays. */
  lemma {:induction false} StableUnderReplays(t: State, d: Delivery, n: nat)
    requires t.Valid()
    requires Step(t, d) == t
    ensures DeliverAll(t, seq(n, _ => d)) == t
    decreases n
  {
    if n > 0 {
      assert seq(n, _ => d)[1..] == seq(n - 1, _ => d);
      StableUnderReplays(t, d, n - 1);
    }
  }

  /**
   * Delivering the same webhook n >= 1 times has exactly the effect of
   * delivering it once: at most one renewal is committed.
   */
  lemma RepeatedDeliveryCommitsOnce(s: State, d: Delivery, n: nat)
    requires s.Valid()
    requires n >= 1
    ensures DeliverAll(s, seq(n, _ => d)) == Step(s, d)
  {
    var t := Step(s, d);
    if t != s {
      RenewalReplayIsNoop(s, d.sub.orderId, d.sub, d.paymentId, d.paymentId);
    }
    assert Step(t, d) == t;
    assert seq(n, _ => d)[0] == d && seq(n, _ => d)[1..] == seq(n - 1, _ => d);
    StableUnderReplays(t, d, n - 1);
  }

  /**
   * Renewals delivered once each and in order, with `paid_count` rising one
   * at a time from the local count and the subscription never fully paid on
   * the way, are each counted: the count rises by the number of deliveries.
   */
  lemma {:induction false} InOrderDeliveriesAllCount(s: State, orderId: OrderId, deliveries: seq<Delivery>)
    requires s.Valid()
    requires |s.SubscriptionsFor(orderId)| == 1
    requires s.SubscriptionsFor(orderId)[0] in s.completed
    requires forall i :: 0 <= i < |deliveries| ==>
               var count := s.completed[s.SubscriptionsFor(orderId)[0]];
               deliveries[i].sub.orderId == orderId &&
               deliveries[i].sub.paidCount == count + i + 1 && deliveries[i].sub.totalCount != count + i
    ensures var wcId := s.SubscriptionsFor(orderId)[0];
            DeliverAll(s, deliveries).completed[wcId] == s.completed[wcId] + |deliveries|
    decreases |deliveries|
  {
    if deliveries != [] {
      var wcId := s.SubscriptionsFor(orderId)[0];
      var d := deliveries[0];
      RenewalRule(s, orderId, d.sub, d.paymentId);
      var t := Step(s, d);
      assert t.completed[wcId] == s.completed[wcId] + 1;
      assert t.SubscriptionsFor(orderId) == s.SubscriptionsFor(orderId);
      var rest := deliveries[1..];
      forall i | 0 <= i < |rest|
        ensures rest[i].sub.orderId == orderId &&
                rest[i].sub.paidCount == t.completed[wcId] + i + 1 && rest[i].sub.totalCount != t.completed[wcId] + i
      {
        assert rest[i] == deliveries[i + 1];
      }
      InOrderDeliveriesAllCount(t, orderId, rest);
    }
  }
}
