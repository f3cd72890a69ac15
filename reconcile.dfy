/**
 * What one webhook delivery does, as functions of the WooCommerce state before
 * it, the merchant's `payment_action` setting, the payload and the gateway's
 * answers: how the handler ends, the calls it issues in order, and the
 * WooCommerce state after it. The handler methods are proved equal to these;
 * the lemmas below state what the handler promises.
 */
module Reconcile {
  import opened Wrappers
  import opened Model
  import opened Rules

  datatype Run = Run(outcome: Outcome, calls: seq<Call>, post: State)

  function Prefixed(pre: seq<Call>, r: Run): Run {
    r.(calls := pre + r.calls)
  }

  /** Calls that belong to the order path only. */
  predicate OrderPathCall(c: Call) {
    c.LoadOrder? || c.FetchPayment? || c.Capture? || c.UpdateOrder?
  }

  /** processSubscriptionSuccess: the guard, then the renewal rule on the first subscription. */
  function SubscriptionSuccessRun(s: State, orderId: OrderId, sub: Subscription, paymentId: PaymentId): (r: Run)
    requires s.Valid()
    ensures r.post.Valid()
    ensures r.post.orders == s.orders && r.post.subscriptionsOf == s.subscriptionsOf
    ensures r.post.completed.Keys == s.completed.Keys
    ensures forall x :: x in s.completed ==>
              r.post.completed[x] == s.completed[x] || r.post.completed[x] == s.completed[x] + 1 == sub.paidCount
    ensures r.outcome == Return || r.outcome == Exit || r.outcome == Fatal
    ensures r.post != s ==> r.outcome == Return
    ensures forall c :: c in r.calls ==> !OrderPathCall(c) && !c.MarkFailed?
  {
    var subs := s.SubscriptionsFor(orderId);
    // The source's guard counts the first subscription object instead of the
    // list (GuardAsWritten); the guard used here is the one it describes.
    if MoreThanOneSubscription(subs) then Run(Exit, [Log(MultipleSubscriptions)], s)
    else if |subs| == 0 then Run(Fatal, [], s)
    else
      var wcId := subs[0];
      assert wcId == s.subscriptionsOf[orderId][0];
      var count := s.completed[wcId];
      match DecideRenewal(count, sub.totalCount, sub.paidCount)
      case NextRenewal =>
        Run(Return, [PrepareRenewal(wcId), PaymentComplete(wcId, paymentId)], s.WithPaymentCompleted(wcId))
      case _ => Run(Return, [], s)
  }

  /** processSubscription: fetch the subscription, then fail it or process its renewal. */
  function SubscriptionRun(s: State, paymentId: PaymentId, subscriptionId: SubscriptionId, success: bool,
                           fetched: Result<Subscription, string>): (r: Run)
    requires s.Valid()
    ensures r.post.Valid()
    ensures r.post.orders == s.orders && r.post.subscriptionsOf == s.subscriptionsOf
    ensures |r.calls| > 0 && r.calls[0] == FetchSubscription(subscriptionId)
    ensures forall c :: c in r.calls ==> !OrderPathCall(c)
    ensures r.outcome.ErrorString? <==> fetched.Failure?
    ensures !success ==> r.post == s
  {
    var head := [FetchSubscription(subscriptionId)];
    match fetched
    case Failure(m) => Run(ErrorString(SubscriptionFetchError(m)), head, s)
    case Success(sub) =>
      if !success then Run(Return, head + [MarkFailed(sub.orderId)], s)
      else
        var inner := SubscriptionSuccessRun(s, sub.orderId, sub, paymentId);
        Run(if inner.outcome == Fatal then Fatal else Exit, head + inner.calls, inner.post)
  }

  /** getInvoice's calls: the fetch, and on failure the log entry, whose `event` is null. */
  function InvoiceCalls(invoiceId: InvoiceId, fetched: Result<Invoice, string>): (calls: seq<Call>)
    ensures NoMutation(calls)
    ensures |calls| == if fetched.Failure? then 2 else 1
    ensures calls[0] == FetchInvoice(invoiceId)
  {
    match fetched
    case Failure(m) => [FetchInvoice(invoiceId), Log(FetchFailed(m, invoiceId, None))]
    case Success(_) => [FetchInvoice(invoiceId)]
  }

  /** The plain-order half of paymentAuthorized. */
  function OrderRun(s: State, paymentAction: string, data: Payload, gw: Responses): (r: Run)
    ensures r.post.subscriptionsOf == s.subscriptionsOf && r.post.completed == s.completed
    ensures r.post.orders.Keys == s.orders.Keys
    ensures forall o :: o in s.orders && o != data.entity.orderId ==> r.post.orders[o] == s.orders[o]
    ensures |r.calls| > 0 && r.calls[0] == LoadOrder(data.entity.orderId)
    ensures r.outcome == Return || r.outcome == Exit || r.outcome == Fatal
  {
    var orderId := data.entity.orderId;
    var paymentId := data.entity.id;
    var load := [LoadOrder(orderId)];
    if orderId !in s.orders then Run(Fatal, load, s)
    else if !s.orders[orderId].needsPayment then Run(Return, load, s)
    else
      var fetch := load + [FetchPayment(paymentId)];
      match gw.payment
      case Failure(m) => Run(Exit, fetch + [Log(FetchFailed(m, paymentId, Some(data.event)))], s)
      case Success(payment) =>
        var amount := s.orders[orderId].amount;
        var d := Settle(payment.status, paymentAction);
        if d.capture && !gw.captureSucceeds then Run(Fatal, fetch + [Capture(paymentId, amount)], s)
        else
          var capture := if d.capture then [Capture(paymentId, amount)] else [];
          Run(Exit, fetch + capture + [UpdateOrder(orderId, d.success, FAILURE_MESSAGE, paymentId, true)],
              s.WithOrderUpdated(orderId, d.success, paymentId))
  }

  /** paymentAuthorized: the subscription path when the invoice names a subscription, else the order path. */
  function AuthorizedRun(s: State, paymentAction: string, data: Payload, gw: Responses): (r: Run)
    requires s.Valid()
    ensures r.post.Valid()
    ensures r.post.subscriptionsOf == s.subscriptionsOf && r.post.orders.Keys == s.orders.Keys
    ensures r.outcome.ErrorString? ==> r.post == s && NoMutation(r.calls)
  {
    match data.entity.invoiceId
    case None => OrderRun(s, paymentAction, data, gw)
    case Some(invoiceId) =>
      var pre := InvoiceCalls(invoiceId, gw.invoice);
      match gw.invoice
      case Failure(_) => Run(Exit, pre, s)
      case Success(invoice) =>
        match SubscriptionIdOf(invoice)
        case Some(subscriptionId) =>
          Prefixed(pre, SubscriptionRun(s, data.entity.id, subscriptionId, true, gw.subscription))
        case None => Prefixed(pre, OrderRun(s, paymentAction, data, gw))
  }

  /**
   * paymentFailed: only a payment whose invoice names a subscription is acted
   * on. The modelled records never change: the failure marking of the
   * subscription's order is the MarkFailed call, whose effect inside
   * WooCommerce is not modelled.
   */
  function FailedRun(s: State, data: Payload, gw: Responses): (r: Run)
    requires s.Valid()
    ensures r.post == s
    ensures r.outcome != Fatal
    ensures forall c :: c in r.calls ==> !OrderPathCall(c) && !c.PrepareRenewal? && !c.PaymentComplete?
  {
    match data.entity.invoiceId
    case None => Run(Exit, [], s)
    case Some(invoiceId) =>
      var pre := InvoiceCalls(invoiceId, gw.invoice);
      match gw.invoice
      case Failure(_) => Run(Exit, pre, s)
      case Success(invoice) =>
        match SubscriptionIdOf(invoice)
        case Some(subscriptionId) =>
          Prefixed(pre, SubscriptionRun(s, data.entity.id, subscriptionId, false, gw.subscription))
        case None => Run(Exit, pre, s)
  }

  // ---------------------------------------------------------------------------
  // Dispatch

  /**
   * An invoice naming a subscription sends paymentAuthorized down the
   * subscription path with success = true; the order is never loaded.
   */
  lemma SubscriptionPathFirst(s: State, paymentAction: string, data: Payload, gw: Responses)
    requires s.Valid()
    requires data.entity.invoiceId.Some? && gw.invoice.Success?
    requires SubscriptionIdOf(gw.invoice.value).Some?
    ensures AuthorizedRun(s, paymentAction, data, gw) ==
            Prefixed([FetchInvoice(data.entity.invoiceId.value)],
                     SubscriptionRun(s, data.entity.id, SubscriptionIdOf(gw.invoice.value).value, true, gw.subscription))
    ensures forall c :: c in AuthorizedRun(s, paymentAction, data, gw).calls ==> !OrderPathCall(c)
  {
  }

  /** Without an invoice, or with an invoice that names no subscription, paymentAuthorized takes the order path. */
  lemma OrderPathOtherwise(s: State, paymentAction: string, data: Payload, gw: Responses)
    requires s.Valid()
    requires data.entity.invoiceId.None? ||
             (gw.invoice.Success? && SubscriptionIdOf(gw.invoice.value).None?)
    ensures AuthorizedRun(s, paymentAction, data, gw) ==
            if data.entity.invoiceId.None? then OrderRun(s, paymentAction, data, gw)
            else Prefixed([FetchInvoice(data.entity.invoiceId.value)], OrderRun(s, paymentAction, data, gw))
  {
  }

  // ---------------------------------------------------------------------------
  // The order path

  /** A settled order makes the delivery a no-op: no payment fetch, no capture, no update. */
  lemma SettledOrderIsNoop(s: State, paymentAction: string, data: Payload, gw: Responses)
    requires data.entity.orderId in s.orders && !s.orders[data.entity.orderId].needsPayment
    ensures OrderRun(s, paymentAction, data, gw) == Run(Return, [LoadOrder(data.entity.orderId)], s)
  {
  }

  /** A payment fetch that throws is logged with the webhook's event and ends the request unchanged. */
  lemma PaymentFetchFailureAborts(s: State, paymentAction: string, data: Payload, gw: Responses)
    requires data.entity.orderId in s.orders && s.orders[data.entity.orderId].needsPayment
    requires gw.payment.Failure?
    ensures OrderRun(s, paymentAction, data, gw) ==
            Run(Exit, [LoadOrder(data.entity.orderId), FetchPayment(data.entity.id),
                       Log(FetchFailed(gw.payment.error, data.entity.id, Some(data.event)))], s)
  {
  }

  /**
   * The payment-success rule: `captured` succeeds; `authorized` with the
   * capture setting is captured for the order's amount and then succeeds;
   * anything else fails. Either way updateOrder is called once, last, with the
   * payment id, the fixed message and the webhook flag, and the order it names
   * is the only one that changes.
   */
  lemma SuccessRule(s: State, paymentAction: string, data: Payload, gw: Responses)
    requires data.entity.orderId in s.orders && s.orders[data.entity.orderId].needsPayment
    requires gw.payment.Success?
    requires gw.payment.value.status == "authorized" && paymentAction == CAPTURE_ACTION ==> gw.captureSucceeds
    ensures var orderId, paymentId, status := data.entity.orderId, data.entity.id, gw.payment.value.status;
            var captures := status == "authorized" && paymentAction == CAPTURE_ACTION;
            var success := status == "captured" || captures;
            OrderRun(s, paymentAction, data, gw) ==
            Run(Exit,
                [LoadOrder(orderId), FetchPayment(paymentId)]
                + (if captures then [Capture(paymentId, s.orders[orderId].amount)] else [])
                + [UpdateOrder(orderId, success, FAILURE_MESSAGE, paymentId, true)],
                s.WithOrderUpdated(orderId, success, paymentId))
  {
  }

  /** A capture that throws ends the request after the capture call, before the order is updated. */
  lemma CaptureFailureLeavesOrder(s: State, paymentAction: string, data: Payload, gw: Responses)
    requires data.entity.orderId in s.orders && s.orders[data.entity.orderId].needsPayment
    requires gw.payment.Success? && gw.payment.value.status == "authorized" && paymentAction == CAPTURE_ACTION
    requires !gw.captureSucceeds
    ensures OrderRun(s, paymentAction, data, gw) ==
            Run(Fatal, [LoadOrder(data.entity.orderId), FetchPayment(data.entity.id),
                        Capture(data.entity.id, s.orders[data.entity.orderId].amount)], s)
  {
  }

  /** A capture or an order update on the order path: what it may be, and where it stands in the calls. */
  predicate DisciplinedCall(r: Run, i: int, s: State, paymentAction: string, data: Payload, gw: Responses)
    requires 0 <= i < |r.calls|
  {
    (r.calls[i].Capture? ==>
       gw.payment.Success? && gw.payment.value.status == "authorized" && paymentAction == CAPTURE_ACTION &&
       data.entity.orderId in s.orders &&
       r.calls[i] == Capture(data.entity.id, s.orders[data.entity.orderId].amount)) &&
    (r.calls[i].UpdateOrder? ==>
       i == |r.calls| - 1 && r.outcome == Exit && r.calls[i].orderId == data.entity.orderId &&
       r.calls[i].paymentId == data.entity.id && r.calls[i].webhook)
  }

  lemma OrderCallDiscipline(s: State, paymentAction: string, data: Payload, gw: Responses)
    ensures var r := OrderRun(s, paymentAction, data, gw);
            forall i :: 0 <= i < |r.calls| ==> DisciplinedCall(r, i, s, paymentAction, data, gw)
  {
  }

  /**
   * Over every delivery of paymentAuthorized: a capture is issued only for an
   * authorized payment under the capture setting, for the order's amount, and
   * updateOrder is called at most once, for the payload's order and payment,
   * as the last call.
   */
  lemma CaptureAndUpdateDiscipline(s: State, paymentAction: string, data: Payload, gw: Responses)
    requires s.Valid()
    ensures var r := AuthorizedRun(s, paymentAction, data, gw);
            forall i :: 0 <= i < |r.calls| ==> DisciplinedCall(r, i, s, paymentAction, data, gw)
  {
    var r := AuthorizedRun(s, paymentAction, data, gw);
    if data.entity.invoiceId.None? {
      OrderCallDiscipline(s, paymentAction, data, gw);
    } else if gw.invoice.Success? && SubscriptionIdOf(gw.invoice.value).None? {
      var pre := InvoiceCalls(data.entity.invoiceId.value, gw.invoice);
      var o := OrderRun(s, paymentAction, data, gw);
      OrderCallDiscipline(s, paymentAction, data, gw);
      assert r == Prefixed(pre, o);
      forall i | 0 <= i < |r.calls|
        ensures DisciplinedCall(r, i, s, paymentAction, data, gw)
      {
        if i < |pre| {
          assert r.calls[i] == pre[i];
          assert !pre[i].Mutates();
        } else {
          assert r.calls[i] == o.calls[i - |pre|];
          assert DisciplinedCall(o, i - |pre|, s, paymentAction, data, gw);
        }
      }
    } else {
      forall i | 0 <= i < |r.calls|
        ensures !r.calls[i].Capture? && !r.calls[i].UpdateOrder?
      {
        assert r.calls[i] in r.calls;
      }
    }
  }

  /** Once a delivery has completed the order, a replay of the same delivery changes nothing. */
  lemma SettledOrderReplayIsNoop(s: State, paymentAction: string, data: Payload, gw: Responses, replay: Responses)
    requires var r := OrderRun(s, paymentAction, data, gw);
             r.calls[|r.calls| - 1].UpdateOrder? && r.calls[|r.calls| - 1].success
    ensures var r := OrderRun(s, paymentAction, data, gw);
            OrderRun(r.post, paymentAction, data, replay) == Run(Return, [LoadOrder(data.entity.orderId)], r.post)
  {
  }

  // ---------------------------------------------------------------------------
  // Invoices and failed payments

  /** An invoice fetch that throws is logged with a null event and ends either handler unchanged. */
  lemma InvoiceFetchFailureAborts(s: State, paymentAction: string, data: Payload, gw: Responses)
    requires s.Valid()
    requires data.entity.invoiceId.Some? && gw.invoice.Failure?
    ensures var invoiceId := data.entity.invoiceId.value;
            var logged := Run(Exit, [FetchInvoice(invoiceId), Log(FetchFailed(gw.invoice.error, invoiceId, None))], s);
            AuthorizedRun(s, paymentAction, data, gw) == logged && FailedRun(s, data, gw) == logged
  {
  }

  /**
   * paymentFailed acts only when the invoice names a subscription, and then
   * hands it to processSubscription with success = false; otherwise it exits
   * with no change.
   */
  lemma FailedPaymentNeedsSubscription(s: State, data: Payload, gw: Responses)
    requires s.Valid()
    ensures var r := FailedRun(s, data, gw);
            if data.entity.invoiceId.Some? && gw.invoice.Success? && SubscriptionIdOf(gw.invoice.value).Some? then
              r == Prefixed([FetchInvoice(data.entity.invoiceId.value)],
                            SubscriptionRun(s, data.entity.id, SubscriptionIdOf(gw.invoice.value).value, false, gw.subscription))
            else
              r.outcome == Exit && NoMutation(r.calls)
  {
  }

  // ---------------------------------------------------------------------------
  // processSubscription

  /** A subscription fetch that throws returns the diagnostic string instead of exiting, and changes nothing. */
  lemma SubscriptionFetchFailureReturnsDiagnostic(s: State, paymentId: PaymentId, subscriptionId: SubscriptionId,
                                                  success: bool, message: string)
    requires s.Valid()
    ensures SubscriptionRun(s, paymentId, subscriptionId, success, Failure(message)) ==
            Run(ErrorString(SubscriptionFetchError(message)), [FetchSubscription(subscriptionId)], s)
  {
  }

  /** With success = false the order named in the subscription's notes is marked failed, and nothing else happens. */
  lemma UnsuccessfulSubscriptionMarksOrderFailed(s: State, paymentId: PaymentId, subscriptionId: SubscriptionId,
                                                 sub: Subscription)
    requires s.Valid()
    ensures SubscriptionRun(s, paymentId, subscriptionId, false, Success(sub)) ==
            Run(Return, [FetchSubscription(subscriptionId), MarkFailed(sub.orderId)], s)
  {
  }

  /** With success = true the renewal of the order in the subscription's notes is processed, and the request exits. */
  lemma SuccessfulSubscriptionProcessesRenewal(s: State, paymentId: PaymentId, subscriptionId: SubscriptionId,
                                               sub: Subscription)
    requires s.Valid()
    ensures var inner := SubscriptionSuccessRun(s, sub.orderId, sub, paymentId);
            SubscriptionRun(s, paymentId, subscriptionId, true, Success(sub)) ==
            Run(if inner.outcome == Fatal then Fatal else Exit, [FetchSubscription(subscriptionId)] + inner.calls, inner.post)
  {
  }

  // ---------------------------------------------------------------------------
  // processSubscriptionSuccess

  /** More than one subscription on the order: log and exit before any count is read or changed. */
  lemma GuardAbortsBeforeRenewal(s: State, orderId: OrderId, sub: Subscription, paymentId: PaymentId)
    requires s.Valid()
    requires MoreThanOneSubscription(s.SubscriptionsFor(orderId))
    ensures SubscriptionSuccessRun(s, orderId, sub, paymentId) == Run(Exit, [Log(MultipleSubscriptions)], s)
  {
  }

  /**
   * The renewal rule on the order's one subscription: fully paid wins and
   * changes nothing; otherwise the next expected renewal prepares the renewal
   * and completes the payment once; any other count is ignored.
   */
  lemma RenewalRule(s: State, orderId: OrderId, sub: Subscription, paymentId: PaymentId)
    requires s.Valid()
    requires |s.SubscriptionsFor(orderId)| == 1
    ensures var wcId := s.SubscriptionsFor(orderId)[0];
            wcId in s.completed &&
            var count := s.completed[wcId];
            SubscriptionSuccessRun(s, orderId, sub, paymentId) ==
            if count == sub.totalCount then Run(Return, [], s)
            else if count + 1 == sub.paidCount then
              Run(Return, [PrepareRenewal(wcId), PaymentComplete(wcId, paymentId)], s.WithPaymentCompleted(wcId))
            else Run(Return, [], s)
  {
  }

  /** An order with no subscription reaches a method call on null: the request dies with nothing changed. */
  lemma NoSubscriptionIsFatal(s: State, orderId: OrderId, sub: Subscription, paymentId: PaymentId)
    requires s.Valid()
    requires s.SubscriptionsFor(orderId) == []
    ensures SubscriptionSuccessRun(s, orderId, sub, paymentId) == Run(Fatal, [], s)
  {
  }

  /**
   * A committed renewal is not committed twice: the same snapshot delivered
   * again, with any payment id, finds the raised count and changes nothing.
   */
  lemma RenewalReplayIsNoop(s: State, orderId: OrderId, sub: Subscription, paymentId: PaymentId, replayId: PaymentId)
    requires s.Valid()
    requires SubscriptionSuccessRun(s, orderId, sub, paymentId).post != s
    ensures var t := SubscriptionSuccessRun(s, orderId, sub, paymentId).post;
            SubscriptionSuccessRun(t, orderId, sub, replayId) == Run(Return, [], t)
  {
  }
}
