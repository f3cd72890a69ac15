/** Concrete deliveries, driven through the handler object as a caller would. */
module Scenarios {
  import opened Wrappers
  import opened Model
  import opened Rules
  import opened Store
  import opened Handler
  import Reconcile

  /**
   * payment.authorized with no invoice for order 42, which still needs
   * payment; the gateway reports the payment captured. Order 42 is completed
   * with the payment id and the request exits; a replay is a no-op.
   */
  method CapturedOrderScenario()
  {
    var order := Order(true, 50000, Pending);
    var store := new WooStore(State(map["42" := order], map[], map[]));
    var webhook := new SubscriptionWebhook("authorize", store);
    var data := Payload("payment.authorized", PaymentEntity("pay_1", None, "42"));
    var gw := Responses(Success(Payment("captured")), Failure("unused"), Failure("unused"), true);
    var outcome := webhook.PaymentAuthorized(data, gw);
    assert outcome == Exit;
    assert store.orders["42"].status == Paid("pay_1") && !store.orders["42"].needsPayment;
    assert webhook.calls == [LoadOrder("42"), FetchPayment("pay_1"),
                             UpdateOrder("42", true, FAILURE_MESSAGE, "pay_1", true)];
    outcome := webhook.PaymentAuthorized(data, gw);
    assert outcome == Return;
    assert webhook.calls[3..] == [LoadOrder("42")];
  }

  /**
   * payment.failed whose invoice inv_1 belongs to subscription sub_9, whose
   * notes name order 7: order 7's subscription is marked failed, and no
   * order amount, capture or order update is involved.
   */
  method FailedRenewalScenario()
  {
    var store := new WooStore(State(map[], map["7" := ["wc_7"]], map["wc_7" := 3]));
    var webhook := new SubscriptionWebhook(CAPTURE_ACTION, store);
    var data := Payload("payment.failed", PaymentEntity("pay_2", Some("inv_1"), "7"));
    var gw := Responses(Failure("unused"), Success(Invoice(Some("sub_9"))), Success(Subscription(12, 4, "7")), true);
    var outcome := webhook.PaymentFailed(data, gw);
    assert outcome == Return;
    assert webhook.calls == [FetchInvoice("inv_1"), FetchSubscription("sub_9"), MarkFailed("7")];
    assert store.completed["wc_7"] == 3;
  }

  /**
   * A renewal of order 7 delivered twice: the first delivery, with paid_count
   * one above the local count, completes one payment; the duplicate changes
   * nothing.
   */
  method DuplicateRenewalScenario()
  {
    var store := new WooStore(State(map[], map["7" := ["wc_7"]], map["wc_7" := 3]));
    var webhook := new SubscriptionWebhook(CAPTURE_ACTION, store);
    var data := Payload("payment.authorized", PaymentEntity("pay_3", Some("inv_2"), "7"));
    var gw := Responses(Failure("unused"), Success(Invoice(Some("sub_9"))), Success(Subscription(12, 4, "7")), true);
    ghost var before := store.Snapshot();
    assert SubscriptionIdOf(Invoice(Some("sub_9"))) == Some("sub_9");
    assert before.SubscriptionsFor("7") == ["wc_7"];
    Reconcile.RenewalRule(before, "7", Subscription(12, 4, "7"), "pay_3");
    var outcome := webhook.PaymentAuthorized(data, gw);
    assert outcome == Exit && store.completed["wc_7"] == 4;
    assert webhook.calls == [FetchInvoice("inv_2"), FetchSubscription("sub_9"),
                             PrepareRenewal("wc_7"), PaymentComplete("wc_7", "pay_3")];
    outcome := webhook.PaymentAuthorized(data, gw);
    assert outcome == Exit && store.completed["wc_7"] == 4;
    assert webhook.calls[4..] == [FetchInvoice("inv_2"), FetchSubscription("sub_9")];
  }
}
