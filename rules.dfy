/**
 * The decisions the handler takes on fetched values alone: whether an invoice
 * names a subscription, whether a payment settles the order and whether it is
 * captured, whether a renewal is committed, and the diagnostic it returns when
 * a subscription cannot be fetched.
 */
module Rules {
  import opened Wrappers
  import opened Model

  /** PHP's `empty()` on a string field: true for null, "" and "0". */
  predicate PhpEmpty(v: Option<string>) {
    v.None? || v.value == "" || v.value == "0"
  }

  /** The subscription an invoice belongs to, when `empty($invoice->subscription_id)` is false. */
  function SubscriptionIdOf(inv: Invoice): (r: Option<SubscriptionId>)
    ensures r.Some? <==> !PhpEmpty(inv.subscriptionId)
    ensures r.Some? ==> Some(r.value) == inv.subscriptionId && r.value != "" && r.value != "0"
  {
    if PhpEmpty(inv.subscriptionId) then None else inv.subscriptionId
  }

  /** The message updateOrder receives on every call, whether or not the payment succeeded. */
  const FAILURE_MESSAGE: string := "The payment has failed."

  /** The merchant setting value that asks for authorized payments to be captured. */
  const CAPTURE_ACTION: string := "capture"

  /** Whether the order is settled, and whether a capture is issued first. */
  datatype Settlement = Settlement(success: bool, capture: bool)

  /**
   * The payment-success rule on the fetched `status` and the merchant's
   * `payment_action`, written as the source's if / else-if chain.
   */
  function Settle(status: string, paymentAction: string): (r: Settlement)
    ensures r.capture <==> status == "authorized" && paymentAction == CAPTURE_ACTION
    ensures r.capture ==> r.success
    ensures r.success <==> status == "captured" || r.capture
    ensures !r.success ==> status != "captured" && (status == "authorized" ==> paymentAction != CAPTURE_ACTION)
  {
    if status == "captured" then Settlement(true, false)
    else if status == "authorized" && paymentAction == CAPTURE_ACTION then Settlement(true, true)
    else Settlement(false, false)
  }

  /** The three ways the renewal comparison can go. */
  datatype Renewal = FullyPaid | NextRenewal | Mismatch

  /**
   * The renewal rule: the local completed count against the gateway's
   * `total_count` first, then against `paid_count`.
   */
  function DecideRenewal(completed: int, totalCount: int, paidCount: int): (d: Renewal)
    ensures d == FullyPaid <==> completed == totalCount
    ensures d == NextRenewal <==> completed != totalCount && completed + 1 == paidCount
    ensures d == Mismatch <==> completed != totalCount && completed + 1 != paidCount
  {
    if completed == totalCount then FullyPaid
    else if completed + 1 == paidCount then NextRenewal
    else Mismatch
  }

  /**
   * Once a renewal has been committed for a snapshot, the same snapshot seen
   * with the raised count is never committed again: the count now equals
   * `paid_count`, so the comparison reports either fully paid or a mismatch.
   */
  lemma CommittedSnapshotIsNotCommittedAgain(completed: int, totalCount: int, paidCount: int)
    requires DecideRenewal(completed, totalCount, paidCount) == NextRenewal
    ensures DecideRenewal(completed + 1, totalCount, paidCount) ==
            if completed + 1 == totalCount then FullyPaid else Mismatch
  {
  }

  /**
   * The multiple-subscription guard as the code writes it: `count()` is taken
   * of the FIRST subscription object, after the list has been replaced by it.
   * Under PHP 7 `count(null)` is 0 and `count()` of an object that is not
   * Countable is 1, so the guard compares 0 or 1 with 1.
   */
  function PhpCountOfFirst(subs: seq<WcSubscriptionId>): (n: nat)
    ensures n <= 1
  {
    if |subs| == 0 then 0 else 1
  }

  predicate GuardAsWritten(subs: seq<WcSubscriptionId>) {
    PhpCountOfFirst(subs) > 1
  }

  /** The as-written guard never fires, whatever the order's subscriptions are. */
  lemma GuardAsWrittenNeverFires(subs: seq<WcSubscriptionId>)
    ensures !GuardAsWritten(subs)
  {
  }

  /** The guard the comment and the log entry describe: more than one subscription for the order. */
  predicate MoreThanOneSubscription(subs: seq<WcSubscriptionId>) {
    |subs| > 1
  }

  /** An order with two subscriptions: the intended guard fires, the written one does not. */
  lemma TwoSubscriptionsSlipPastWrittenGuard()
    ensures MoreThanOneSubscription(["wc_1", "wc_2"]) && !GuardAsWritten(["wc_1", "wc_2"])
  {
  }

  const SUBSCRIPTION_FETCH_PREFIX: string := "RAZORPAY ERROR: Subscription fetch failed with the message '"

  /** The diagnostic processSubscription returns when the subscription fetch throws. */
  function SubscriptionFetchError(message: string): (s: string)
    ensures |s| == |SUBSCRIPTION_FETCH_PREFIX| + |message| + 1
    ensures s[..|SUBSCRIPTION_FETCH_PREFIX|] == SUBSCRIPTION_FETCH_PREFIX && s[|s| - 1] == '\''
    ensures s[|SUBSCRIPTION_FETCH_PREFIX|..|s| - 1] == message
  {
    SUBSCRIPTION_FETCH_PREFIX + message + "'"
  }

  /** The diagnostic carries the exception's message: distinct messages give distinct strings. */
  lemma SubscriptionFetchErrorKeepsMessage(m1: string, m2: string)
    requires SubscriptionFetchError(m1) == SubscriptionFetchError(m2)
    ensures m1 == m2
  {
    var n := |SUBSCRIPTION_FETCH_PREFIX|;
    var s := SubscriptionFetchError(m1);
    assert s[n..|s| - 1] == m1;
    assert SubscriptionFetchError(m2)[n..|s| - 1] == m2;
  }
}
