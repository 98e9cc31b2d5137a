# Stripe payment gateway for Moodle — a Dafny model of its core

This project models the decision-making core of the Moodle payment gateway plugin
`paygw_stripe` and proves properties of it. The plugin sells Moodle items, such as
course enrolments, through Stripe Checkout.

- **Stripe helper** (`stripe_helper.dfy`, module `StripeHelper`, class `Helper`).
  - Finds or creates the Stripe product for an item and the Stripe customer for a
    user. A local row whose remote object has gone is deleted, so that it is
    recreated.
  - Chooses the price to charge. The first active listed price is reused when its
    amount and currency match. Otherwise it is switched off and a new price is
    created. With automatic tax on, a reused price that has no tax behaviour is
    given one.
  - Converts a cost into minor units. Zero-decimal currencies are not multiplied.
  - Creates the one-item checkout session.
  - Saves a completed payment idempotently.
  - Tells whether a session is paid (`StripeHelper.IsPaid`).
- **The remote account** (`stripe.dfy`, class `Stripe.Account`). It keeps the live
  products and customers, the prices newest first (the order the list endpoint
  returns them), and the sessions created. A serial counter makes every new
  identifier fresh.
- **The plugin's tables** (`moodle_db.dfy`, class `MoodleDb.Ledger`). Products are
  keyed by (component, paymentarea, itemid), customers by user id, and intents by
  payment intent. There is also a log of deliveries.
- **The return page** `process.php` (`process.dfy`). It routes on session mode,
  subscription status and the paid/saved flags. Its replay guard means a paid
  one-time session is delivered at most once, however often the page is reloaded.
- **The webhook endpoint** `webhook.php` (`webhook.dfy`). Its guard chain yields
  the HTTP status code 400, 500, 400, 202 or 200.
- **The gateway class** (`gateway.dfy`). It holds the fixed list of supported
  currencies and the validation of the configuration form.

Calls whose code is not part of this model are treated as oracles, that is, as
parameters:

- The Stripe API answers: whether a recorded product or customer still exists,
  whether the price listing fails, the session retrieved, the subscription status
  and the pending flag.
- `gateway::get_zero_decimal_currencies` becomes the parameter `zeroDecimal`.
- `get_webhook` and `process_stripe_event` become outcomes passed to
  `Webhook.Respond`.

Two helper methods are not part of this model:

- `is_checkout_session_saved` is modelled as "the intents table has a row for
  the session's payment intent". That row is what `save_payment_status` writes.
- `deliver_course` is modelled as appending a record to the deliveries log.

An existing price is reused whenever its unit amount and currency match, whatever
its billing mode (classes/stripe_helper.php:241); `ReconcilePrice` does the same.

The model makes two assumptions about behaviour outside the plugin's own files.
Stripe names a payment intent on a checkout session only in "payment" mode, so a
subscription's session has none. Moodle's database refuses a row with no value
in a NOT NULL column, and the intents table's `paymentintent` column is NOT NULL
(db/upgrade.php:85). Under these assumptions, saving a subscription's session on
the return page (process.php:48) matches no row, and its insert is refused. The
exception then ends the page before the item is delivered. The model keeps this:
`SavePaymentStatus` reports the refused insert, the page ends with
`RequestFailed`, and `Process.SessionWithoutIntentNeverDelivered` states it.
This consequence is derived, not executed; it is not listed as a finding because
neither process.php nor classes/stripe_helper.php says what a subscription's saved row should be keyed by.

The tax behaviour patched onto a reused price follows the corrected reading of
classes/stripe_helper.php:250 described under "## Findings"; the members that
run it are listed under "## Left out".

## Model

| member | source | states |
|---|---|---|
| Gateway.SupportedCurrencies | classes/gateway.php:28-40 | the list has 105 entries |
| Gateway.SupportedCurrenciesOrder | classes/gateway.php:31-39 | "USD" comes first; the remaining codes run strictly alphabetically from "AED" to "ZAR" |
| Gateway.SupportedCurrenciesAreCodes | classes/gateway.php:31-39 | every entry is a three-letter upper-case code; "USD" is not repeated after the first place |
| Gateway.ZeroDecimalCodesSupported | classes/gateway.php:34-38 | the zero-decimal currencies JPY, KRW and VND are in the list |
| Gateway.ValidateGatewayForm | classes/gateway.php:85-90 | "enabled" gets the "gateway cannot be enabled" error iff the gateway is enabled and the API key, secret key (empty or "0") or payment-method list is empty; no other key is added, removed or changed; a disabled gateway leaves the errors unchanged |
| Stripe.PricesOf | classes/stripe_helper.php:134 | the listing for a product holds exactly the account's prices of that product, and no more entries than the account has prices; its order is stated by `StripeHelper.FirstActiveIsNewest` |
| Stripe.Account.CreateProduct | classes/stripe_helper.php:114-116 | the new product id was never issued before; exactly that product is added; nothing else changes |
| Stripe.Account.CreateCustomer | classes/stripe_helper.php:203-206 | the new customer id is fresh; exactly that customer is added; nothing else changes |
| Stripe.Account.CreatePrice | classes/stripe_helper.php:167 | the new price is active, carries the requested fields and a fresh id, and is listed before all older prices |
| Stripe.Account.Deactivate | classes/stripe_helper.php:243-244 | exactly the price with that id becomes inactive |
| Stripe.Account.SetTaxBehavior | classes/stripe_helper.php:250-251 | exactly the price with that id gets the tax behaviour |
| Stripe.Account.CreateCheckoutSession | classes/stripe_helper.php:259-289 | one session is appended, with an id that no earlier session has; products, customers and prices are unchanged |
| StripeHelper.MinorUnitsPerUnit | classes/stripe_helper.php:313-318 | a currency has 1 minor unit per unit iff it is zero-decimal, and 100 otherwise |
| StripeHelper.UnitAmount | classes/stripe_helper.php:313-318 | the amount is the cost times the minor units of the currency: the cost for a zero-decimal currency, cost × 100 otherwise, both stated for any currency; a non-negative cost never shrinks |
| StripeHelper.UnitAmountIsCaseSensitive | classes/stripe_helper.php:231-232 | zero-decimal membership is tested on the code as given: with an upper-case list, "jpy" is charged in hundredths while "JPY" is not |
| StripeHelper.Lower | classes/stripe_helper.php:232 | lower-casing keeps the length, lowers each ASCII letter, and leaves no upper-case letter |
| StripeHelper.FirstActiveIndex | classes/stripe_helper.php:135-141 | the position found has no active price before it and is active itself, or is past the end when none is active |
| StripeHelper.FirstActive | classes/stripe_helper.php:135-142 | nothing is found iff no listed price is active; what is found is active and sits at a position with no active price before it, so it is the first active price |
| StripeHelper.FirstActiveIsNewest | classes/stripe_helper.php:132-146 | over the account's own prices, newest first: the first active price of a product's listing exists iff some price of the product is active, and it is the earliest active price of that product |
| StripeHelper.ChargedPriceIsFirstActive | classes/stripe_helper.php:237-253 | the price a payment charged is afterwards the first active price of the product, and a further tax patch would leave it as it is |
| StripeHelper.PriceRequestFor | classes/stripe_helper.php:159-166 | a tax behaviour is set iff automatic tax is on: the default behaviour when one is configured, "inclusive" otherwise; currency, product and amount are passed through |
| StripeHelper.PatchAgreesWithNewPrice | classes/stripe_helper.php:249-252 | the corrected patch gives a reused price the behaviour a newly created price gets under the same configuration |
| StripeHelper.PatchedTaxBehaviorAsWritten | classes/stripe_helper.php:250 | the patch as written: the `tax_behavior` setting when present, "inclusive" otherwise; the default tax behaviour plays no part |
| StripeHelper.PatchAsWrittenIgnoresDefault | classes/stripe_helper.php:250 | as written, with default behaviour "exclusive", a reused price is patched to "inclusive" while a new price gets "exclusive" |
| StripeHelper.SaveIntent | classes/stripe_helper.php:332-346 | the insert is refused iff the session has no payment intent; otherwise the intent has a row afterwards, existing rows are unchanged, and a new row holds the session's fields |
| StripeHelper.SaveIntentIdempotent | classes/stripe_helper.php:327-347 | saving the same session again, even as another user, after a successful save changes nothing |
| StripeHelper.IsPaid | classes/stripe_helper.php:301-304 | a session is paid iff its payment status is exactly "paid"; a session that needed no payment is not paid |
| StripeHelper.Helper.GetProduct | classes/stripe_helper.php:83-99 | no row: returns nothing, table unchanged; row whose product is live: returns it, table unchanged; stale row: exactly that row is deleted, returns nothing |
| StripeHelper.Helper.CreateProduct | classes/stripe_helper.php:112-124 | creates one fresh product and inserts exactly one row holding its id; the other tables and account parts are unchanged |
| StripeHelper.Helper.GetPrice | classes/stripe_helper.php:132-146 | a failed listing gives nothing; otherwise the first active price of the product in listing order, which is a live, active price of that product |
| StripeHelper.Helper.CreatePrice | classes/stripe_helper.php:157-168 | one new active price with the requested fields and the tax behaviour of `PriceRequestFor` is listed first; nothing else changes |
| StripeHelper.Helper.ReconcilePrice | classes/stripe_helper.php:237-253 | the chosen price is active, of the product, with the requested amount and currency; the first active price is reused iff its amount and currency match; a reused price is patched only when automatic tax is on and its behaviour is unset or "unspecified"; otherwise that price is switched off and exactly one new price is created; products, customers and sessions are unchanged |
| StripeHelper.Helper.SupersedePrice | classes/stripe_helper.php:241-247 | the old price is switched off and one new active price with the requested amount and currency is listed first |
| StripeHelper.Helper.ApplyTaxBehavior | classes/stripe_helper.php:249-252 | a price without a tax behaviour, under automatic tax, gets the configured default; any other price is left as it is |
| StripeHelper.Helper.GetCustomer | classes/stripe_helper.php:177-190 | the same three outcomes as GetProduct, keyed by user id: a stale row is deleted and every other customer row is untouched |
| StripeHelper.Helper.CreateCustomer | classes/stripe_helper.php:201-212 | creates one fresh customer and inserts exactly one row holding its id |
| StripeHelper.Helper.GeneratePayment | classes/stripe_helper.php:227-292 | a product and a customer are created only when lookup found none live; the session has mode "payment" and a single line item, quantity 1, whose price is active, of the item's product, with the amount converted from the currency as given and the lower-cased currency; the first active price is reused iff it matches, and is then patched or left as it is; otherwise it is switched off and exactly one fresh price is listed first; every other price is unchanged |
| StripeHelper.Helper.GeneratePaymentTwice | classes/stripe_helper.php:227-292 | paying again for the same item, cost and currency (with the listing answering) creates no product, customer or price: over both payments at most one of each is created, and both sessions charge the same price to the same customer |
| StripeHelper.Helper.GeneratePaymentAgain | classes/stripe_helper.php:227-292 | with the item's product and the user's customer recorded and live, and the product's first active price already of the amount and currency asked for (and, under automatic tax, carrying the configured behaviour when it needs one): no row, product, customer or price is created, and the one new session charges that price |
| StripeHelper.Helper.ResolveProduct | classes/stripe_helper.php:234-236 | the recorded product is kept when live, otherwise a fresh one replaces the row |
| StripeHelper.Helper.ResolveCustomer | classes/stripe_helper.php:255-257 | the recorded customer is kept when live, otherwise a fresh one replaces the row |
| StripeHelper.Helper.SavePaymentStatus | classes/stripe_helper.php:327-347 | a session without a payment intent is refused and the table is unchanged; the table is unchanged when a row for the payment intent exists; otherwise exactly one row with the session's fields is inserted |
| StripeHelper.Helper.DeliverCourse | process.php:65 | one delivery record, holding the session's mode and payment intent, is appended to the log |
| Process.Route | process.php:43-73 | save-and-deliver happens iff (subscription with a status other than incomplete, incomplete_expired or canceled) or (payment, paid and not yet saved); a paid and saved payment is refused as already delivered; an unpaid payment reports pending or does not redirect; any other mode does nothing |
| Process.Step | process.php:43-73 | the page only adds: deliveries gain at most one record and saved rows are kept; a delivery is made only with a saved payment intent and a success outcome; a session without a payment intent changes nothing; when the decision is not to save and deliver, the tables are unchanged and the outcome is the decision's; a paid one-time session whose intent is not saved gets exactly its row and one delivery and succeeds; a subscription with a status that grants access and a payment intent has that intent saved, one delivery appended, and succeeds |
| Process.Run | process.php:43-73 | over any sequence of callbacks, earlier deliveries and saved intents are kept |
| Process.ProcessCheckout | process.php:43-73 | the page's effect on intents and deliveries and its outcome are those of `Step`; a refused save ends the page before delivery; when something is delivered, the payment intent is saved |
| Process.StepKeepsInvariant | process.php:58-65 | one run of the page keeps the invariant: every delivery's intent is saved, and no one-time payment's intent is delivered twice |
| Process.RunKeepsInvariant | process.php:58-65 | any sequence of callbacks keeps the invariant |
| Process.DeliveredAtMostOnce | process.php:58-65 | under the invariant, each payment intent has at most one one-time-payment delivery |
| Process.PaidSessionDeliveredAtMostOnce | process.php:57-73 | from a ledger with no deliveries, any sequence of callbacks delivers each one-time payment at most once |
| Process.ReplayIsRefused | process.php:58-62 | a second callback for a paid one-time session with a payment intent changes nothing and is answered "already delivered" |
| Process.SessionWithoutIntentNeverDelivered | process.php:45-65 | a session without a payment intent is never saved or delivered; where the page would save it, it ends with the refused insert |
| Webhook.Respond | webhook.php:38-80 | the code is 200, 202, 400 or 500; a loosely-null body gives 400; a missing webhook gives 500; the event is processed iff the body decodes, the webhook is found and the event is authentic; 200 iff processed and acted upon; 202 iff processed and not acted upon |
| Webhook.UndecodableBodyDecidesAlone | webhook.php:38-42 | a loosely-null body gives 400 whatever the later steps would have said |
| Webhook.MissingSecretPrecedesSignature | webhook.php:52-57 | with no webhook on file the answer is 500 whatever the signature check would say |
| Webhook.RejectedEventNeverProcessed | webhook.php:60-78 | an event whose payload or signature is rejected is never processed and gets 400 (or 500 when no webhook is found first) |

## Left out

- StripeHelper.Helper.CreateProduct: requires that no row exists for the item, because the tables are maps. The source inserts without checking, and its only caller, `generate_payment`, calls it only after `get_product` found no row or deleted the stale one.
- StripeHelper.Helper.CreateCustomer: requires that no row exists for the user, for the same reason as CreateProduct.
- StripeHelper.Helper.GetPrice: looks at every price of the product. The API call returns one page (ten prices by default), and the page limit is not modelled.
- StripeHelper.Helper.GetPrice: the `instanceof Price` test is not modelled, because every listed object is a price.
- StripeHelper.Helper.ApplyTaxBehavior: patches with the configured default tax behaviour (the corrected line 250 under "## Findings"), not with `tax_behavior ?? 'inclusive'` as written.
- StripeHelper.Helper.SupersedePrice: runs the corrected tax patch, like ApplyTaxBehavior. With default behaviour "inclusive" or "exclusive" the patch never applies to the new price.
- StripeHelper.Helper.ReconcilePrice: its contract states the corrected tax patch for a reused price, not the patch as written.
- StripeHelper.Helper.GeneratePayment: its contract states the corrected tax patch for a reused price, not the patch as written.
- StripeHelper.Helper.GeneratePaymentTwice: follows from GeneratePayment's contract, and so from the corrected tax patch.
- StripeHelper.Helper.GeneratePaymentAgain: follows from GeneratePayment's contract, and so from the corrected tax patch.
- `stripe.products` and `stripe.customers` stand for "the retrieve succeeds". `get_product` and `get_customer` catch every API error (classes/stripe_helper.php:90, :184), so a transient failure on a live object is modelled as the object having gone: its row is deleted and a new one is created.
- Stripe API failures other than on those retrieves and on the price listing are not modelled. In the source they raise exceptions that end the request.
- Product names, customer e-mail and description, session URLs, metadata, payment-method options, promotion codes and the customer-update setting are not modelled, because no decision reads them.
- Amounts are exact reals. PHP floats, and the float comparison of `unit_amount`, are not modelled.
- `generate_subscription`, `get_sessionmode`, `get_subscription_status`, `is_pending`, `get_webhook` and `process_stripe_event` are not part of this model. Their answers are parameters.
- `is_checkout_session_saved` and `deliver_course` are not part of this model. They are modelled as described above.
- The subscription branch of the return page has no replay guard in the source. The model does the same, and the at-most-once property covers one-time payments only. A subscription's session has no payment intent, so in the model it never gets past saving.
- The webhook's configuration and payable lookups from the event metadata are not modelled. Uncaught exceptions are not modelled either.
- Concurrent requests are not modelled: two return-page requests racing between the saved check and the insert.
- The page output, redirects' messages, the configuration form's layout, `pay.php` and the privacy provider are not modelled.

## Findings

| source | as written | input that shows it | evidently intended | confidence | as-written member | corrected member |
|---|---|---|---|---|---|---|
| classes/stripe_helper.php:250 | the tax behaviour patched onto a reused price is `$config->tax_behavior ?? 'inclusive'`, and no setting is named `tax_behavior` | automatic tax on, default tax behaviour "exclusive", and a reused price with the requested amount and currency whose behaviour is unset: it is patched to "inclusive", while a price created under the same settings gets "exclusive" | `$config->defaulttaxbehavior ?? 'inclusive'`, as `create_price` is passed at lines 239 and 246 | medium, not executed | StripeHelper.PatchAsWrittenIgnoresDefault | StripeHelper.PatchAgreesWithNewPrice |
