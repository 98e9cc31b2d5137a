/**
 * The page the payer returns to after checkout. It decides, from the
 * session's mode, the subscription's status and whether the session is paid
 * and already saved, whether to save the payment and deliver the item, and
 * where to send the browser. A paid one-time session whose payment is
 * already saved is refused, so that reloading the page cannot deliver twice.
 */
module Process {
  import opened Stripe
  import opened MoodleDb
  import opened StripeHelper

  /**
   * Where the browser is sent. `NoRedirect` is the page ending without a
   * redirect; `RequestFailed` is the page ending with the exception raised when
   * the database refuses to save the payment.
   */
  datatype Outcome =
    | SubscriptionSuccessful
    | SubscriptionError
    | AlreadyDelivered
    | PaymentSuccessful
    | PaymentPending
    | NoRedirect
    | RequestFailed

  /** Subscription statuses that do not give access to the item. */
  const FailedSubscriptionStatuses: seq<string> := ["incomplete", "incomplete_expired", "canceled"]

  /** Whether to save the payment and deliver the item (always both or neither), and where to go. */
  datatype Decision = Decision(saveAndDeliver: bool, outcome: Outcome)

  function Route(mode: string, subscriptionStatus: string, paid: bool, saved: bool, pending: bool): (d: Decision)
    ensures d.saveAndDeliver <==>
              || (mode == "subscription" && subscriptionStatus !in FailedSubscriptionStatuses)
              || (mode == "payment" && paid && !saved)
    ensures d.saveAndDeliver ==> d.outcome == SubscriptionSuccessful || d.outcome == PaymentSuccessful
    ensures mode == "subscription" && subscriptionStatus in FailedSubscriptionStatuses ==> d.outcome == SubscriptionError
    ensures mode == "payment" && paid && saved ==> d.outcome == AlreadyDelivered
    ensures mode == "payment" && !paid ==> d.outcome == (if pending then PaymentPending else NoRedirect)
    ensures mode != "subscription" && mode != "payment" ==> d == Decision(false, NoRedirect)
  {
    if mode == "subscription" then
      if subscriptionStatus !in FailedSubscriptionStatuses then Decision(true, SubscriptionSuccessful)
      else Decision(false, SubscriptionError)
    else if mode == "payment" then
      if paid then
        if saved then Decision(false, AlreadyDelivered)
        else Decision(true, PaymentSuccessful)
      else if pending then Decision(false, PaymentPending)
      else Decision(false, NoRedirect)
    else Decision(false, NoRedirect)
  }

  /** The part of the ledger the page changes. */
  datatype Site = Site(intents: map<StripeId, IntentRow>, deliveries: seq<Delivery>)

  /** What the page receives: the item, the payer, and the answers of the calls it makes to the account. */
  datatype Callback = Callback(
    item: ProductKey,
    userId: int,
    session: SessionRecord,
    subscriptionStatus: string,
    pending: bool)

  /** The session counts as saved when the intents table has a row for its payment intent. */
  predicate SessionSaved(intents: map<StripeId, IntentRow>, session: SessionRecord)
  {
    session.paymentIntent.Some? && session.paymentIntent.value in intents
  }

  /**
   * The page's effect on the ledger and where it sends the browser. Saving
   * comes before delivering: when the save is refused the page ends there.
   */
  function Step(site: Site, call: Callback): (r: (Site, Outcome))
    ensures site.deliveries <= r.0.deliveries && |r.0.deliveries| <= |site.deliveries| + 1
    ensures site.intents.Keys <= r.0.intents.Keys
    ensures forall pi :: pi in site.intents ==> r.0.intents[pi] == site.intents[pi]
    ensures |r.0.deliveries| > |site.deliveries| ==>
              && call.session.paymentIntent.Some? && call.session.paymentIntent.value in r.0.intents
              && r.0.deliveries[|site.deliveries|]
                 == Delivery(call.item, call.userId, call.session.mode, call.session.paymentIntent.value)
              && (r.1 == SubscriptionSuccessful || r.1 == PaymentSuccessful)
    ensures call.session.paymentIntent.None? ==> r.0 == site
    ensures var d := Route(call.session.mode, call.subscriptionStatus, IsPaid(call.session),
                           SessionSaved(site.intents, call.session), call.pending);
      !d.saveAndDeliver ==> r == (site, d.outcome)
    ensures call.session.mode == "payment" && IsPaid(call.session) && call.session.paymentIntent.Some? &&
            call.session.paymentIntent.value !in site.intents ==>
              var pi := call.session.paymentIntent.value;
              r == (Site(site.intents[pi := IntentRowOf(call.session, pi, call.userId)],
                         site.deliveries + [Delivery(call.item, call.userId, "payment", pi)]),
                    PaymentSuccessful)
    ensures call.session.mode == "subscription" && call.subscriptionStatus !in FailedSubscriptionStatuses &&
            call.session.paymentIntent.Some? ==>
              var pi := call.session.paymentIntent.value;
              && r.0.intents.Keys == site.intents.Keys + {pi}
              && (pi !in site.intents ==> r.0.intents[pi] == IntentRowOf(call.session, pi, call.userId))
              && r.0.deliveries == site.deliveries + [Delivery(call.item, call.userId, "subscription", pi)]
              && r.1 == SubscriptionSuccessful
  {
    var session := call.session;
    var d := Route(session.mode, call.subscriptionStatus, IsPaid(session), SessionSaved(site.intents, session),
                   call.pending);
    if !d.saveAndDeliver then (site, d.outcome)
    else
      match SaveIntent(site.intents, session, call.userId)
      case InsertRefused => (site, RequestFailed)
      case Saved(intents) =>
        (Site(intents, site.deliveries + [Delivery(call.item, call.userId, session.mode, session.paymentIntent.value)]),
         d.outcome)
  }

  /** The page run once per callback, in order: deliveries are only ever added, and saved rows kept. */
  function Run(site: Site, calls: seq<Callback>): (r: Site)
    ensures site.deliveries <= r.deliveries
    ensures site.intents.Keys <= r.intents.Keys
    decreases |calls|
  {
    if calls == [] then site else Run(Step(site, calls[0]).0, calls[1..])
  }

  /**
   * Every delivery was preceded by saving its payment intent, and a one-time
   * payment's intent was delivered for at most once: no earlier delivery has it.
   */
  ghost predicate SavedAndDeliveredOnce(site: Site)
  {
    && (forall i :: 0 <= i < |site.deliveries| ==> site.deliveries[i].paymentIntent in site.intents)
    && (forall i, j :: 0 <= i < j < |site.deliveries| && site.deliveries[j].sessionMode == "payment" ==>
          site.deliveries[i].paymentIntent != site.deliveries[j].paymentIntent)
  }

  /** Each run of the page keeps the invariant. */
  lemma StepKeepsInvariant(site: Site, call: Callback)
    requires SavedAndDeliveredOnce(site)
    ensures SavedAndDeliveredOnce(Step(site, call).0)
  {
    var next := Step(site, call).0;
    if |next.deliveries| > |site.deliveries| {
      var pi := call.session.paymentIntent.value;
      assert next.intents.Keys == site.intents.Keys + {pi};
      assert call.session.mode == "payment" ==> pi !in site.intents;
      var n := |site.deliveries|;
      forall i, j | 0 <= i < j < |next.deliveries| && next.deliveries[j].sessionMode == "payment"
        ensures next.deliveries[i].paymentIntent != next.deliveries[j].paymentIntent
      {
        if j == n {
          assert next.deliveries[i] == site.deliveries[i];
          assert site.deliveries[i].paymentIntent in site.intents;
        }
      }
    }
  }

  /** Any sequence of callbacks keeps the invariant. */
  lemma {:induction false} RunKeepsInvariant(site: Site, calls: seq<Callback>)
    requires SavedAndDeliveredOnce(site)
    ensures SavedAndDeliveredOnce(Run(site, calls))
    decreases |calls|
  {
    if calls != [] {
      StepKeepsInvariant(site, calls[0]);
      RunKeepsInvariant(Step(site, calls[0]).0, calls[1..]);
    }
  }

  /** The number of one-time-payment deliveries made for the payment intent `pi`. */
  function PaymentDeliveries(deliveries: seq<Delivery>, pi: StripeId): nat
  {
    if deliveries == [] then 0
    else PaymentDeliveries(deliveries[..|deliveries| - 1], pi)
         + (var last := deliveries[|deliveries| - 1];
            if last.sessionMode == "payment" && last.paymentIntent == pi then 1 else 0)
  }

  /** No delivery among `deliveries` is for `pi`, so none is counted. */
  lemma {:induction false} NoneCounted(deliveries: seq<Delivery>, pi: StripeId)
    requires forall i :: 0 <= i < |deliveries| ==> deliveries[i].paymentIntent != pi
    ensures PaymentDeliveries(deliveries, pi) == 0
  {
    if deliveries != [] {
      NoneCounted(deliveries[..|deliveries| - 1], pi);
    }
  }

  /** Under the invariant each payment intent is delivered for at most once. */
  lemma {:induction false} DeliveredAtMostOnce(site: Site, pi: StripeId)
    requires SavedAndDeliveredOnce(site)
    ensures PaymentDeliveries(site.deliveries, pi) <= 1
    decreases |site.deliveries|
  {
    var ds := site.deliveries;
    if ds != [] {
      var n := |ds| - 1;
      var prefix := Site(site.intents, ds[..n]);
      assert SavedAndDeliveredOnce(prefix) by {
        forall i, j | 0 <= i < j < n && ds[..n][j].sessionMode == "payment"
          ensures ds[..n][i].paymentIntent != ds[..n][j].paymentIntent
        {
          assert ds[..n][i] == ds[i] && ds[..n][j] == ds[j];
        }
      }
      DeliveredAtMostOnce(prefix, pi);
      if ds[n].sessionMode == "payment" && ds[n].paymentIntent == pi {
        forall i | 0 <= i < n
          ensures ds[..n][i].paymentIntent != pi
        {
          assert ds[..n][i] == ds[i];
        }
        NoneCounted(ds[..n], pi);
      }
    }
  }

  /**
   * Starting from a ledger with no deliveries, however often and in whatever
   * order the page is called back, no one-time payment is delivered twice.
   */
  lemma PaidSessionDeliveredAtMostOnce(intents: map<StripeId, IntentRow>, calls: seq<Callback>, pi: StripeId)
    ensures PaymentDeliveries(Run(Site(intents, []), calls).deliveries, pi) <= 1
  {
    RunKeepsInvariant(Site(intents, []), calls);
    DeliveredAtMostOnce(Run(Site(intents, []), calls), pi);
  }

  /**
   * Calling the page back again for a paid one-time session changes nothing
   * and is refused, whoever calls and whatever else the account reports.
   */
  lemma ReplayIsRefused(site: Site, first: Callback, again: Callback)
    requires first.session.mode == "payment" && IsPaid(first.session) && first.session.paymentIntent.Some?
    requires again.session == first.session
    ensures var after := Step(site, first).0;
      Step(after, again) == (after, AlreadyDelivered)
  {
  }

  /**
   * A session without a payment intent, as a subscription's checkout session
   * is, is never saved or delivered: where the page would save it, the insert
   * is refused and the page ends with an error.
   */
  lemma SessionWithoutIntentNeverDelivered(site: Site, call: Callback)
    requires call.session.paymentIntent.None?
    ensures Step(site, call).0 == site
    ensures call.session.mode == "subscription" && call.subscriptionStatus !in FailedSubscriptionStatuses ==>
              Step(site, call).1 == RequestFailed
    ensures call.session.mode == "payment" && IsPaid(call.session) ==> Step(site, call).1 == RequestFailed
  {
  }

  /**
   * The page as run: saves the payment and then delivers the item when the
   * decision says so, and leaves the tables alone otherwise.
   */
  method ProcessCheckout(helper: Helper, db: Ledger, call: Callback) returns (outcome: Outcome)
    modifies db`intents, db`deliveries
    ensures (Site(db.intents, db.deliveries), outcome) == Step(Site(old(db.intents), old(db.deliveries)), call)
    ensures |db.deliveries| > |old(db.deliveries)| ==> SessionSaved(db.intents, call.session)
  {
    var session := call.session;
    if session.mode == "subscription" {
      if call.subscriptionStatus !in FailedSubscriptionStatuses {
        var written := helper.SavePaymentStatus(db, session, call.userId);
        if !written {
          return RequestFailed;
        }
        helper.DeliverCourse(db, call.item, call.userId, session.mode, session.paymentIntent.value);
        return SubscriptionSuccessful;
      }
      return SubscriptionError;
    } else if session.mode == "payment" {
      if IsPaid(session) {
        if SessionSaved(db.intents, session) {
          // A replay of a session already delivered.
          return AlreadyDelivered;
        }
        var written := helper.SavePaymentStatus(db, session, call.userId);
        if !written {
          return RequestFailed;
        }
        helper.DeliverCourse(db, call.item, call.userId, session.mode, session.paymentIntent.value);
        return PaymentSuccessful;
      } else if call.pending {
        return PaymentPending;
      }
    }
    return NoRedirect;
  }
}
