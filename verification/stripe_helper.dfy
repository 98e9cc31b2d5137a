/**
 * The helper that keeps the plugin's tables and the Stripe account in step:
 * lookup-or-create of products and customers (a row whose remote object has
 * gone is deleted so that it is recreated), the choice of the price to charge,
 * the conversion of a cost into the amount Stripe expects, and the idempotent
 * saving of a completed payment.
 */
module StripeHelper {
  import opened Wrappers
  import opened Stripe
  import opened MoodleDb

  /** The gateway configuration settings these decisions read. */
  datatype Config = Config(
    automaticTax: bool,                  // enableautomatictax
    defaultTaxBehavior: Option<string>,  // defaulttaxbehavior
    taxBehavior: Option<string>)         // tax_behavior: read at one place, set by no setting

  // ---------------------------------------------------------------- amounts

  /** How many minor units make one unit of `currency`. */
  function MinorUnitsPerUnit(currency: string, zeroDecimal: seq<string>): (n: real)
    ensures n == 1.0 || n == 100.0
    ensures n == 1.0 <==> currency in zeroDecimal
  {
    if currency in zeroDecimal then 1.0 else 100.0
  }

  /**
   * The amount Stripe expects for `cost`: the cost itself for a zero-decimal
   * currency, the cost in hundredths otherwise. Membership in the zero-decimal
   * list is tested on `currency` exactly as given.
   */
  function UnitAmount(cost: real, currency: string, zeroDecimal: seq<string>): (amount: real)
    ensures amount == cost * MinorUnitsPerUnit(currency, zeroDecimal)
    ensures currency in zeroDecimal ==> amount == cost
    ensures currency !in zeroDecimal ==> amount == cost * 100.0
    ensures cost >= 0.0 ==> amount >= cost
  {
    if currency in zeroDecimal then cost else cost * 100.0
  }

  /**
   * Zero-decimal membership is case-sensitive: with an upper-case list, the
   * lower-cased code of a zero-decimal currency is charged in hundredths.
   */
  lemma UnitAmountIsCaseSensitive(cost: real, zeroDecimal: seq<string>)
    requires "JPY" in zeroDecimal && "jpy" !in zeroDecimal && cost != 0.0
    ensures UnitAmount(cost, "JPY", zeroDecimal) == cost
    ensures UnitAmount(cost, "jpy", zeroDecimal) != UnitAmount(cost, "JPY", zeroDecimal)
  {
  }

  function AsciiLower(c: char): char
  {
    if 'A' <= c <= 'Z' then (c as int - 'A' as int + 'a' as int) as char else c
  }

  /** PHP's `strtolower`: ASCII upper-case letters become lower case, nothing else changes. */
  function Lower(s: string): (r: string)
    ensures |r| == |s|
    ensures forall i :: 0 <= i < |s| ==> r[i] == AsciiLower(s[i])
    ensures forall i :: 0 <= i < |s| ==> !('A' <= r[i] <= 'Z')
  {
    seq(|s|, i requires 0 <= i < |s| => AsciiLower(s[i]))
  }

  // ----------------------------------------------------------------- prices

  /** The position of the first active price in `listing`, or `|listing|` if there is none. */
  function FirstActiveIndex(listing: seq<Price>): (k: nat)
    ensures k <= |listing|
    ensures forall j :: 0 <= j < k ==> !listing[j].active
    ensures k < |listing| ==> listing[k].active
  {
    if listing == [] then 0
    else if listing[0].active then 0
    else 1 + FirstActiveIndex(listing[1..])
  }

  /** The three properties of `FirstActiveIndex` determine it. */
  lemma {:induction false} FirstActiveIndexUnique(listing: seq<Price>, k: nat)
    requires k <= |listing|
    requires forall j :: 0 <= j < k ==> !listing[j].active
    requires k < |listing| ==> listing[k].active
    ensures FirstActiveIndex(listing) == k
  {
    if listing != [] && !listing[0].active {
      assert k > 0;
      FirstActiveIndexUnique(listing[1..], k - 1);
    }
  }

  /** The first active price of `listing`, if any. */
  function FirstActive(listing: seq<Price>): (first: Option<Price>)
    ensures first.None? <==> forall p :: p in listing ==> !p.active
    ensures first.Some? ==> first.value in listing && first.value.active
    ensures first.Some? ==> exists k :: 0 <= k < |listing| && listing[k] == first.value &&
                                        forall j :: 0 <= j < k ==> !listing[j].active
  {
    var k := FirstActiveIndex(listing);
    if k < |listing| then Some(listing[k]) else None
  }

  /**
   * The first active price of a product's listing, stated over the account's
   * own order (newest first): nothing is found iff no price of the product is
   * active, and what is found is the earliest active price of the product.
   */
  lemma FirstActiveIsNewest(prices: seq<Price>, product: StripeId)
    ensures var first := FirstActive(PricesOf(prices, product));
      && (first.None? <==> forall k :: 0 <= k < |prices| && prices[k].product == product ==> !prices[k].active)
      && (first.Some? ==> exists k :: EarliestActive(prices, product, k) && prices[k] == first.value)
  {
    var listing := PricesOf(prices, product);
    assert FirstActive(listing).None? <==> forall p :: p in listing ==> !p.active;
    if FirstActive(listing).Some? {
      EarliestActiveListed(prices, product);
    }
  }

  /** Position `k` of `prices` holds the earliest active price of `product`. */
  ghost predicate EarliestActive(prices: seq<Price>, product: StripeId, k: int)
  {
    && 0 <= k < |prices| && prices[k].product == product && prices[k].active
    && forall j :: 0 <= j < k && prices[j].product == product ==> !prices[j].active
  }

  /** What the listing's first active price is in the account's order, by induction on the account's prices. */
  lemma {:induction false} EarliestActiveListed(prices: seq<Price>, product: StripeId)
    requires FirstActive(PricesOf(prices, product)).Some?
    ensures exists k :: EarliestActive(prices, product, k) && prices[k] == FirstActive(PricesOf(prices, product)).value
  {
    var p, rest := prices[0], prices[1..];
    assert prices == [p] + rest;
    var listing := PricesOf(rest, product);
    PricesOfCons(p, rest, product);
    if p.product == product {
      FirstActiveCons(p, listing);
    }
    if p.product == product && p.active {
      assert EarliestActive(prices, product, 0);
    } else {
      EarliestActiveListed(rest, product);
      var k :| EarliestActive(rest, product, k) && rest[k] == FirstActive(listing).value;
      ShiftEarliestActive(p, rest, product, k);
    }
  }

  /** A price in front that is not an active price of `product` moves the earliest one back by one place. */
  lemma ShiftEarliestActive(p: Price, rest: seq<Price>, product: StripeId, k: int)
    requires !(p.product == product && p.active)
    requires EarliestActive(rest, product, k)
    ensures EarliestActive([p] + rest, product, k + 1) && ([p] + rest)[k + 1] == rest[k]
  {
    var prices := [p] + rest;
    assert forall j :: 0 < j < k + 1 ==> prices[j] == rest[j - 1];
  }

  /** The listing of a product for prices with a first price `p`. */
  lemma PricesOfCons(p: Price, rest: seq<Price>, product: StripeId)
    ensures PricesOf([p] + rest, product) == if p.product == product then [p] + PricesOf(rest, product)
                                             else PricesOf(rest, product)
  {
    assert ([p] + rest)[1..] == rest;
  }

  /** The first active price of a listing with a first price `p` is `p` if active, else that of the rest. */
  lemma FirstActiveCons(p: Price, listing: seq<Price>)
    ensures FirstActive([p] + listing) == if p.active then Some(p) else FirstActive(listing)
  {
    var l := [p] + listing;
    assert l[1..] == listing;
    if !p.active {
      assert FirstActiveIndex(l) == 1 + FirstActiveIndex(listing);
    }
  }

  /** Patching the tax behaviour of the first active price keeps it first, now patched. */
  lemma FirstActiveWithTaxBehavior(listing: seq<Price>, price: Price, behavior: string)
    requires FirstActive(listing) == Some(price)
    ensures FirstActive(WithTaxBehavior(listing, price.id, behavior)) == Some(price.(taxBehavior := Some(behavior)))
  {
    FirstActiveIndexUnique(WithTaxBehavior(listing, price.id, behavior), FirstActiveIndex(listing));
  }

  /** A price just put at the front of the account's prices is the first active one of its product. */
  lemma NewPriceIsFirstActive(price: Price, older: seq<Price>)
    requires price.active
    ensures FirstActive(PricesOf([price] + older, price.product)) == Some(price)
  {
    assert ([price] + older)[1..] == older;
    assert PricesOf([price] + older, price.product)[0] == price;
  }

  /** The data a price is created with: tax behaviour only with automatic tax, "inclusive" by default. */
  function PriceRequestFor(currency: string, product: StripeId, unitAmount: real, automaticTax: bool,
                           defaultBehavior: Option<string>): (request: PriceRequest)
    ensures request.currency == currency && request.product == product && request.unitAmount == unitAmount
    ensures request.taxBehavior.Some? <==> automaticTax
    ensures automaticTax && defaultBehavior.Some? ==> request.taxBehavior == defaultBehavior
    ensures automaticTax && defaultBehavior.None? ==> request.taxBehavior == Some("inclusive")
  {
    PriceRequest(currency, product, unitAmount,
                 if automaticTax then Some(defaultBehavior.GetOr("inclusive")) else None)
  }

  /** A listed price can be charged again only if it has the amount and currency asked for. */
  predicate Matches(price: Price, unitAmount: real, currency: string)
  {
    price.unitAmount == unitAmount && price.currency == currency
  }

  /** With automatic tax on, a price without a tax behaviour (unset or "unspecified") is given one. */
  predicate NeedsTaxBehavior(config: Config, price: Price)
  {
    config.automaticTax && (price.taxBehavior.None? || price.taxBehavior == Some("unspecified"))
  }

  /** The tax behaviour patched onto a reused price: the configured default, "inclusive" without one. */
  function PatchedTaxBehavior(config: Config): string
  {
    config.defaultTaxBehavior.GetOr("inclusive")
  }

  /**
   * The behaviour the patch gives a reused price is the one a newly created
   * price gets under the same configuration.
   */
  lemma PatchAgreesWithNewPrice(config: Config, currency: string, product: StripeId, unitAmount: real)
    requires config.automaticTax
    ensures PriceRequestFor(currency, product, unitAmount, config.automaticTax, config.defaultTaxBehavior).taxBehavior
            == Some(PatchedTaxBehavior(config))
  {
  }

  /**
   * The patch as the source writes it: it reads the `tax_behavior` setting,
   * while the configured default is `defaulttaxbehavior`.
   */
  function PatchedTaxBehaviorAsWritten(config: Config): (behavior: string)
    ensures config.taxBehavior.None? ==> behavior == "inclusive"
    ensures config.taxBehavior.Some? ==> behavior == config.taxBehavior.value
  {
    config.taxBehavior.GetOr("inclusive")
  }

  /**
   * With "exclusive" configured as the default, the source patches a reused
   * price to "inclusive", while a price it creates gets "exclusive".
   */
  lemma PatchAsWrittenIgnoresDefault()
    ensures var config := Config(true, Some("exclusive"), None);
      && PatchedTaxBehaviorAsWritten(config) == "inclusive"
      && PriceRequestFor("usd", StripeId("prod", 0), 1999.0, true, config.defaultTaxBehavior).taxBehavior
         == Some("exclusive")
  {
  }

  // --------------------------------------------------------------- payments

  /** The intents row saved for a completed session whose payment intent is `pi`. */
  function IntentRowOf(session: SessionRecord, pi: StripeId, userId: int): IntentRow
  {
    IntentRow(userId, pi, session.customer, session.amountTotal,
              session.paymentStatus, session.status, session.firstLineProduct)
  }

  /** The outcome of saving a session: the new intents table, or a refused insert. */
  datatype SaveResult = Saved(intents: map<StripeId, IntentRow>) | InsertRefused

  /**
   * Saving `session` in the intents table. With a payment intent the table is
   * unchanged if it has a row for it, and otherwise gains exactly that one row.
   * Without one the lookup matches no row (the column is NOT NULL) and the
   * database refuses the insert of a row with no payment intent.
   */
  function SaveIntent(intents: map<StripeId, IntentRow>, session: SessionRecord, userId: int)
    : (result: SaveResult)
    ensures result.InsertRefused? <==> session.paymentIntent.None?
    ensures result.Saved? ==>
              var pi := session.paymentIntent.value;
              && result.intents.Keys == intents.Keys + {pi}
              && (forall k :: k in intents ==> result.intents[k] == intents[k])
              && (pi !in intents ==> result.intents[pi] == IntentRowOf(session, pi, userId))
  {
    match session.paymentIntent
    case None => InsertRefused
    case Some(pi) => Saved(if pi in intents then intents else intents[pi := IntentRowOf(session, pi, userId)])
  }

  /** Saving the same session again, by any user, changes nothing. */
  lemma SaveIntentIdempotent(intents: map<StripeId, IntentRow>, session: SessionRecord, userId: int, again: int)
    ensures var first := SaveIntent(intents, session, userId);
      first.Saved? ==> SaveIntent(first.intents, session, again) == first
  {
  }

  /**
   * The session has been paid: its payment status is exactly "paid", so a
   * session that needed no payment (a full discount) does not count as paid.
   */
  function IsPaid(session: SessionRecord): (paid: bool)
    ensures paid <==> session.paymentStatus == "paid"
    ensures session.paymentStatus == "no_payment_required" ==> !paid
  {
    session.paymentStatus == "paid"
  }

  /**
   * `price` is the price chosen to charge for `product`, `before` and `after`
   * being the account's prices around the choice and `serial` its counter
   * before it. The first active listed price (none if the listing fails) is
   * reused iff it has the amount and currency asked for; a reused price
   * without a tax behaviour under automatic tax is patched, and otherwise left
   * as it is. Otherwise that price is switched off and a fresh price, with
   * the tax behaviour a new price gets, is put first.
   */
  ghost predicate PriceChosen(before: seq<Price>, after: seq<Price>, product: StripeId, listingFails: bool,
                              unitAmount: real, code: string, config: Config, serial: nat, price: Price)
  {
    var first := if listingFails then None else FirstActive(PricesOf(before, product));
    var reused := first.Some? && Matches(first.value, unitAmount, code);
    && (first.Some? ==> (price.id == first.value.id <==> reused))
    && (reused ==>
          && price == (if NeedsTaxBehavior(config, first.value)
                       then first.value.(taxBehavior := Some(PatchedTaxBehavior(config))) else first.value)
          && after == (if NeedsTaxBehavior(config, first.value)
                       then WithTaxBehavior(before, first.value.id, PatchedTaxBehavior(config))
                       else before))
    && (!reused ==>
          && price.id.kind == "price" && serial <= price.id.serial
          && price.taxBehavior == PriceRequestFor(code, product, unitAmount, config.automaticTax,
                                                  config.defaultTaxBehavior).taxBehavior
          && after == [price] + (if first.Some? then Deactivated(before, first.value.id) else before))
  }

  /**
   * The price a payment charged, as `Helper.GeneratePayment` states it, is
   * afterwards the first active price of the product, and needs no further
   * tax patch: a payment made again reuses it as it is.
   */
  lemma ChargedPriceIsFirstActive(before: seq<Price>, after: seq<Price>, product: StripeId, listingFails: bool,
                                  unitAmount: real, code: string, config: Config, serial: nat, price: Price)
    requires price.active && price.product == product && Matches(price, unitAmount, code)
    requires PriceChosen(before, after, product, listingFails, unitAmount, code, config, serial, price)
    ensures FirstActive(PricesOf(after, product)) == Some(price)
    ensures NeedsTaxBehavior(config, price) ==> price.(taxBehavior := Some(PatchedTaxBehavior(config))) == price
  {
    var first := if listingFails then None else FirstActive(PricesOf(before, product));
    if first.Some? && Matches(first.value, unitAmount, code) {
      if NeedsTaxBehavior(config, first.value) {
        PricesOfWithTaxBehavior(before, product, first.value.id, PatchedTaxBehavior(config));
        FirstActiveWithTaxBehavior(PricesOf(before, product), first.value, PatchedTaxBehavior(config));
      }
    } else {
      NewPriceIsFirstActive(price, after[1..]);
      assert after == [price] + after[1..];
    }
  }

  /**
   * The row for `key` after looking it up and creating on a miss: the row is
   * kept when the account still has its object; otherwise a new object, never
   * issued before, is added to the account and recorded in its place.
   */
  ghost predicate Resolved<K>(key: K, rows: map<K, StripeId>, rowsAfter: map<K, StripeId>,
                              live: set<StripeId>, liveAfter: set<StripeId>)
  {
    && key in rowsAfter && rowsAfter[key] in liveAfter
    && var kept := key in rows && rows[key] in live;
    && (kept ==> rowsAfter == rows && liveAfter == live)
    && (!kept ==> && rowsAfter == rows[key := rowsAfter[key]]
                  && rowsAfter[key] !in live
                  && liveAfter == live + {rowsAfter[key]})
  }

  // ----------------------------------------------------------------- helper

  /** The helper holds a client for the account the configured secret key opens. */
  class Helper {
    const stripe: Account

    constructor (stripe: Account)
      ensures this.stripe == stripe
    {
      this.stripe := stripe;
    }

    /**
     * The product recorded for `key`, if the account still has it. A row whose
     * product the account no longer has is deleted, and nothing else is.
     */
    method GetProduct(db: Ledger, key: ProductKey) returns (product: Option<StripeId>)
      modifies db`products
      ensures key !in old(db.products) ==> product == None && db.products == old(db.products)
      ensures key in old(db.products) && old(db.products)[key] in stripe.products ==>
                product == Some(old(db.products)[key]) && db.products == old(db.products)
      ensures key in old(db.products) && old(db.products)[key] !in stripe.products ==>
                product == None && db.products == old(db.products) - {key}
    {
      if key in db.products {
        var id := db.products[key];
        if id in stripe.products {
          return Some(id);
        }
        db.products := db.products - {key};
        return None;
      }
      return None;
    }

    /** Creates a product in the account and records it for `key`. */
    method CreateProduct(db: Ledger, key: ProductKey) returns (product: StripeId)
      requires stripe.Valid() && key !in db.products
      modifies db`products, stripe
      ensures stripe.Valid()
      ensures product !in old(stripe.products) && stripe.products == old(stripe.products) + {product}
      ensures db.products == old(db.products)[key := product]
      ensures stripe.customers == old(stripe.customers) && stripe.prices == old(stripe.prices)
      ensures stripe.sessions == old(stripe.sessions) && stripe.serial == old(stripe.serial) + 1
    {
      product := stripe.CreateProduct();
      db.products := db.products[key := product];
    }

    /**
     * The first active price of `product` in the account's listing order, or
     * nothing if none is active or the listing fails.
     */
    method GetPrice(product: StripeId, listingFails: bool) returns (price: Option<Price>)
      ensures listingFails ==> price == None
      ensures !listingFails ==> price == FirstActive(PricesOf(stripe.prices, product))
      ensures price.Some? ==> price.value in stripe.prices && price.value.active && price.value.product == product
    {
      if listingFails {
        return None;
      }
      var listing := PricesOf(stripe.prices, product);
      var i := 0;
      while i < |listing|
        invariant 0 <= i <= |listing|
        invariant forall j :: 0 <= j < i ==> !listing[j].active
      {
        if listing[i].active {
          FirstActiveIndexUnique(listing, i);
          return Some(listing[i]);
        }
        i := i + 1;
      }
      FirstActiveIndexUnique(listing, i);
      return None;
    }

    /** Creates a price for `product`; the tax behaviour is set exactly when automatic tax is on. */
    method CreatePrice(currency: string, product: StripeId, unitAmount: real, automaticTax: bool,
                       defaultBehavior: Option<string>) returns (price: Price)
      requires stripe.Valid()
      modifies stripe
      ensures stripe.Valid()
      ensures var request := PriceRequestFor(currency, product, unitAmount, automaticTax, defaultBehavior);
        price == Price(StripeId("price", old(stripe.serial)), product, true, unitAmount, currency, request.taxBehavior)
      ensures stripe.prices == [price] + old(stripe.prices) && stripe.serial == old(stripe.serial) + 1
      ensures stripe.products == old(stripe.products) && stripe.customers == old(stripe.customers)
      ensures stripe.sessions == old(stripe.sessions)
    {
      price := stripe.CreatePrice(PriceRequestFor(currency, product, unitAmount, automaticTax, defaultBehavior));
    }

    /**
     * Chooses the price to charge for `product`: the first active listed price
     * is reused if it has the amount and currency asked for; otherwise it is
     * switched off and a new price is created, as one is when nothing is
     * listed. With automatic tax on, a chosen price without a tax behaviour is
     * given the configured one.
     */
    method ReconcilePrice(product: StripeId, listingFails: bool, unitAmount: real, currency: string, config: Config)
      returns (price: Price)
      requires stripe.Valid()
      modifies stripe
      ensures stripe.Valid()
      ensures stripe.products == old(stripe.products) && stripe.customers == old(stripe.customers)
      ensures stripe.sessions == old(stripe.sessions)
      ensures price in stripe.prices && price.active && price.product == product
      ensures price.unitAmount == unitAmount && price.currency == currency
      ensures PriceChosen(old(stripe.prices), stripe.prices, product, listingFails, unitAmount, currency, config,
                          old(stripe.serial), price)
      ensures var first := if listingFails then None else FirstActive(PricesOf(old(stripe.prices), product));
        !(first.Some? && Matches(first.value, unitAmount, currency)) ==> price.id == StripeId("price", old(stripe.serial))
    {
      var found := GetPrice(product, listingFails);
      if found.None? {
        price := CreatePrice(currency, product, unitAmount, config.automaticTax, config.defaultTaxBehavior);
      } else if !Matches(found.value, unitAmount, currency) {
        price := SupersedePrice(found.value, unitAmount, currency, config);
      } else {
        price := ApplyTaxBehavior(found.value, config);
      }
    }

    /**
     * Replaces `previous`, whose amount or currency differ from those asked
     * for: it is switched off and a new price is created (and, if the new
     * price lacks a tax behaviour under automatic tax, given one).
     */
    method SupersedePrice(previous: Price, unitAmount: real, currency: string, config: Config) returns (price: Price)
      requires stripe.Valid()
      modifies stripe
      ensures stripe.Valid()
      ensures stripe.products == old(stripe.products) && stripe.customers == old(stripe.customers)
      ensures stripe.sessions == old(stripe.sessions)
      ensures price == Price(StripeId("price", old(stripe.serial)), previous.product, true, unitAmount, currency,
                             PriceRequestFor(currency, previous.product, unitAmount, config.automaticTax,
                                             config.defaultTaxBehavior).taxBehavior)
      ensures stripe.prices == [price] + Deactivated(old(stripe.prices), previous.id)
    {
      stripe.Deactivate(previous.id);
      ghost var rest := stripe.prices;
      price := CreatePrice(currency, previous.product, unitAmount, config.automaticTax, config.defaultTaxBehavior);
      if NeedsTaxBehavior(config, price) {
        stripe.SetTaxBehavior(price.id, PatchedTaxBehavior(config));
        price := price.(taxBehavior := Some(PatchedTaxBehavior(config)));
        assert stripe.prices == [price] + rest;
      }
    }

    /**
     * With automatic tax on, gives `price` the configured tax behaviour if it
     * has none (unset or "unspecified"); otherwise leaves it as it is.
     */
    method ApplyTaxBehavior(price: Price, config: Config) returns (patched: Price)
      requires stripe.Valid() && price in stripe.prices
      modifies stripe`prices
      ensures stripe.Valid()
      ensures patched in stripe.prices
      ensures NeedsTaxBehavior(config, price) ==>
                && patched == price.(taxBehavior := Some(PatchedTaxBehavior(config)))
                && stripe.prices == WithTaxBehavior(old(stripe.prices), price.id, PatchedTaxBehavior(config))
      ensures !NeedsTaxBehavior(config, price) ==> patched == price && stripe.prices == old(stripe.prices)
    {
      patched := price;
      if NeedsTaxBehavior(config, price) {
        ghost var k :| 0 <= k < |stripe.prices| && stripe.prices[k] == price;
        stripe.SetTaxBehavior(price.id, PatchedTaxBehavior(config));
        patched := price.(taxBehavior := Some(PatchedTaxBehavior(config)));
        assert stripe.prices[k] == patched;
      }
    }

    /**
     * The customer recorded for `userId`, if the account still has it. A row
     * whose customer the account no longer has is deleted, and nothing else is.
     */
    method GetCustomer(db: Ledger, userId: int) returns (customer: Option<StripeId>)
      modifies db`customers
      ensures userId !in old(db.customers) ==> customer == None && db.customers == old(db.customers)
      ensures userId in old(db.customers) && old(db.customers)[userId] in stripe.customers ==>
                customer == Some(old(db.customers)[userId]) && db.customers == old(db.customers)
      ensures userId in old(db.customers) && old(db.customers)[userId] !in stripe.customers ==>
                customer == None && db.customers == old(db.customers) - {userId}
    {
      if userId !in db.customers {
        return None;
      }
      var id := db.customers[userId];
      if id in stripe.customers {
        return Some(id);
      }
      db.customers := db.customers - {userId};
      return None;
    }

    /** Creates a customer in the account and records it for `userId`. */
    method CreateCustomer(db: Ledger, userId: int) returns (customer: StripeId)
      requires stripe.Valid() && userId !in db.customers
      modifies db`customers, stripe
      ensures stripe.Valid()
      ensures customer !in old(stripe.customers) && stripe.customers == old(stripe.customers) + {customer}
      ensures db.customers == old(db.customers)[userId := customer]
      ensures stripe.products == old(stripe.products) && stripe.prices == old(stripe.prices)
      ensures stripe.sessions == old(stripe.sessions) && stripe.serial == old(stripe.serial) + 1
    {
      customer := stripe.CreateCustomer();
      db.customers := db.customers[userId := customer];
    }

    /**
     * Prepares a one-time checkout for `key` at `cost` in `currency` and
     * returns the session's identifier. The amount is converted from the
     * currency code as given; the code is then lower-cased for comparing and
     * creating prices. A product or customer is created only when none is
     * recorded with the account still holding it. The session has a single
     * line item, of quantity 1, whose price has exactly that amount and currency.
     */
    method GeneratePayment(db: Ledger, config: Config, currency: string, cost: real, key: ProductKey,
                           userId: int, zeroDecimal: seq<string>, listingFails: bool)
      returns (sessionId: StripeId, ghost price: Price)
      requires stripe.Valid()
      modifies db`products, db`customers, stripe
      ensures stripe.Valid()
      ensures Resolved(key, old(db.products), db.products, old(stripe.products), stripe.products)
      ensures Resolved(userId, old(db.customers), db.customers, old(stripe.customers), stripe.customers)
      ensures price in stripe.prices && price.active && price.product == db.products[key]
      ensures price.unitAmount == UnitAmount(cost, currency, zeroDecimal) && price.currency == Lower(currency)
      ensures PriceChosen(old(stripe.prices), stripe.prices, db.products[key], listingFails,
                          UnitAmount(cost, currency, zeroDecimal), Lower(currency), config, old(stripe.serial), price)
      ensures stripe.sessions == old(stripe.sessions) +
                [CheckoutSession(sessionId, "payment", [LineItem(price.id, 1)], db.customers[userId], config.automaticTax)]
    {
      var unitAmount := UnitAmount(cost, currency, zeroDecimal);
      var code := Lower(currency);
      var product := ResolveProduct(db, key);
      assert stripe.prices == old(stripe.prices);
      var chosen := ReconcilePrice(product, listingFails, unitAmount, code, config);
      price := chosen;
      ghost var products, prices := db.products, stripe.prices;
      var customer := ResolveCustomer(db, userId);
      assert db.products == products && stripe.prices == prices;
      sessionId := stripe.CreateCheckoutSession("payment", [LineItem(chosen.id, 1)], customer, config.automaticTax);
    }

    /**
     * Paying twice for the same item, cost and currency, the second time with
     * the price listing answering: the second payment creates no product, no
     * customer and no price, and its session charges the same price, to the
     * same customer, as the first.
     */
    method GeneratePaymentTwice(db: Ledger, config: Config, currency: string, cost: real, key: ProductKey,
                                userId: int, zeroDecimal: seq<string>, listingFails: bool)
      returns (firstSession: StripeId, secondSession: StripeId, ghost firstPrice: Price, ghost secondPrice: Price)
      requires stripe.Valid()
      modifies db`products, db`customers, stripe
      ensures stripe.Valid()
      ensures Resolved(key, old(db.products), db.products, old(stripe.products), stripe.products)
      ensures Resolved(userId, old(db.customers), db.customers, old(stripe.customers), stripe.customers)
      ensures secondPrice == firstPrice && firstPrice in stripe.prices
      ensures |stripe.prices| <= |old(stripe.prices)| + 1
      ensures stripe.sessions == old(stripe.sessions) +
                [CheckoutSession(firstSession, "payment", [LineItem(firstPrice.id, 1)], db.customers[userId],
                                 config.automaticTax),
                 CheckoutSession(secondSession, "payment", [LineItem(firstPrice.id, 1)], db.customers[userId],
                                 config.automaticTax)]
    {
      ghost var prices0, serial0 := stripe.prices, stripe.serial;
      firstSession, firstPrice := GeneratePayment(db, config, currency, cost, key, userId, zeroDecimal, listingFails);
      ChargedPriceIsFirstActive(prices0, stripe.prices, db.products[key], listingFails,
                                UnitAmount(cost, currency, zeroDecimal), Lower(currency), config, serial0, firstPrice);
      secondSession := GeneratePaymentAgain(db, config, currency, cost, key, userId, zeroDecimal, firstPrice);
      secondPrice := firstPrice;
    }

    /**
     * A payment for an item whose product and customer are recorded and live,
     * and whose product's first active price already has the amount and
     * currency asked for (and, under automatic tax, a behaviour): nothing is
     * created, and the session charges that price.
     */
    method GeneratePaymentAgain(db: Ledger, config: Config, currency: string, cost: real, key: ProductKey,
                                userId: int, zeroDecimal: seq<string>, ghost price: Price)
      returns (sessionId: StripeId)
      requires stripe.Valid()
      requires key in db.products && db.products[key] in stripe.products
      requires userId in db.customers && db.customers[userId] in stripe.customers
      requires FirstActive(PricesOf(stripe.prices, db.products[key])) == Some(price)
      requires Matches(price, UnitAmount(cost, currency, zeroDecimal), Lower(currency))
      requires NeedsTaxBehavior(config, price) ==> price.taxBehavior == Some(PatchedTaxBehavior(config))
      modifies db`products, db`customers, stripe
      ensures stripe.Valid()
      ensures db.products == old(db.products) && stripe.products == old(stripe.products)
      ensures db.customers == old(db.customers) && stripe.customers == old(stripe.customers)
      ensures price in stripe.prices && |stripe.prices| == |old(stripe.prices)|
      ensures stripe.sessions == old(stripe.sessions) +
                [CheckoutSession(sessionId, "payment", [LineItem(price.id, 1)], db.customers[userId],
                                 config.automaticTax)]
    {
      ghost var charged;
      sessionId, charged := GeneratePayment(db, config, currency, cost, key, userId, zeroDecimal, false);
      assert charged == price;
    }

    /**
     * The product for `key`: the recorded one if the account still has it,
     * otherwise a new one, recorded in place of the stale row.
     */
    method ResolveProduct(db: Ledger, key: ProductKey) returns (product: StripeId)
      requires stripe.Valid()
      modifies db`products, stripe
      ensures stripe.Valid()
      ensures Resolved(key, old(db.products), db.products, old(stripe.products), stripe.products)
      ensures db.products[key] == product
      ensures stripe.serial == if key in old(db.products) && old(db.products)[key] in old(stripe.products)
                               then old(stripe.serial) else old(stripe.serial) + 1
      ensures stripe.customers == old(stripe.customers) && stripe.prices == old(stripe.prices)
      ensures stripe.sessions == old(stripe.sessions)
    {
      var found := GetProduct(db, key);
      if found.Some? {
        product := found.value;
      } else {
        product := CreateProduct(db, key);
      }
    }

    /**
     * The customer for `userId`: the recorded one if the account still has
     * it, otherwise a new one, recorded in place of the stale row.
     */
    method ResolveCustomer(db: Ledger, userId: int) returns (customer: StripeId)
      requires stripe.Valid()
      modifies db`customers, stripe
      ensures stripe.Valid()
      ensures Resolved(userId, old(db.customers), db.customers, old(stripe.customers), stripe.customers)
      ensures db.customers[userId] == customer
      ensures stripe.serial == if userId in old(db.customers) && old(db.customers)[userId] in old(stripe.customers)
                               then old(stripe.serial) else old(stripe.serial) + 1
      ensures stripe.products == old(stripe.products) && stripe.prices == old(stripe.prices)
      ensures stripe.sessions == old(stripe.sessions)
    {
      var found := GetCustomer(db, userId);
      if found.Some? {
        customer := found.value;
      } else {
        customer := CreateCustomer(db, userId);
      }
    }

    /**
     * Records a completed session in the intents table unless its payment
     * intent is already there. `written` is false when the database refuses
     * the insert (a session without a payment intent); in the source that is
     * an exception which ends the request.
     */
    method SavePaymentStatus(db: Ledger, session: SessionRecord, userId: int) returns (written: bool)
      modifies db`intents
      ensures written <==> session.paymentIntent.Some?
      ensures !written ==> db.intents == old(db.intents)
      ensures written && session.paymentIntent.value in old(db.intents) ==> db.intents == old(db.intents)
      ensures written && session.paymentIntent.value !in old(db.intents) ==>
                var pi := session.paymentIntent.value;
                db.intents == old(db.intents)[pi := IntentRowOf(session, pi, userId)]
      ensures var result := SaveIntent(old(db.intents), session, userId);
        (written <==> result.Saved?) && (written ==> db.intents == result.intents)
    {
      if session.paymentIntent.None? {
        return false;
      }
      var pi := session.paymentIntent.value;
      if pi in db.intents {
        return true;
      }
      db.intents := db.intents[pi := IntentRowOf(session, pi, userId)];
      return true;
    }

    /**
     * Delivers the purchased item; recorded in the deliveries log together
     * with the mode and payment intent of the session paid for it.
     */
    method DeliverCourse(db: Ledger, item: ProductKey, userId: int, mode: string, pi: StripeId)
      modifies db`deliveries
      ensures db.deliveries == old(db.deliveries) + [Delivery(item, userId, mode, pi)]
    {
      db.deliveries := db.deliveries + [Delivery(item, userId, mode, pi)];
    }
  }
}
