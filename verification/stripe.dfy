/**
 * The remote side: the Stripe account that the configured secret key opens.
 * Only what the plugin's decisions depend on is kept: which products and
 * customers exist, the price records in the order the list endpoint returns
 * them (newest first), the checkout sessions created, and a serial counter
 * from which every new object gets an identifier never issued before.
 */
module Stripe {
  import opened Wrappers

  /** An identifier issued by the account: its prefix ("prod", "price", "cus", "cs") and a serial number. */
  datatype StripeId = StripeId(kind: string, serial: nat)

  datatype Price = Price(
    id: StripeId,
    product: StripeId,
    active: bool,
    unitAmount: real,        // in minor units of `currency`
    currency: string,        // lower case, as the account stores it
    taxBehavior: Option<string>)

  /** The fields a price is created with. */
  datatype PriceRequest = PriceRequest(currency: string, product: StripeId, unitAmount: real, taxBehavior: Option<string>)

  datatype LineItem = LineItem(price: StripeId, quantity: nat)

  /** The parts of a checkout session request that the plugin's decisions fix. */
  datatype CheckoutSession = CheckoutSession(
    id: StripeId,
    mode: string,
    lineItems: seq<LineItem>,
    customer: StripeId,
    automaticTax: bool)

  /**
   * A checkout session as retrieved once the payer has come back from checkout.
   * A session in "payment" mode names the payment intent that paid it; a
   * session in "subscription" mode has none (its payments belong to invoices).
   */
  datatype SessionRecord = SessionRecord(
    mode: string,
    paymentIntent: Option<StripeId>,
    customer: StripeId,
    amountTotal: int,
    paymentStatus: string,
    status: string,
    firstLineProduct: StripeId)

  /** The prices of `product`, in the order of `prices`. */
  function PricesOf(prices: seq<Price>, product: StripeId): (listed: seq<Price>)
    ensures |listed| <= |prices|
    ensures forall p :: p in listed ==> p in prices && p.product == product
    ensures forall p :: p in prices && p.product == product ==> p in listed
  {
    if prices == [] then []
    else if prices[0].product == product then [prices[0]] + PricesOf(prices[1..], product)
    else PricesOf(prices[1..], product)
  }

  /** `prices` after the price `id` has been switched to inactive. */
  function Deactivated(prices: seq<Price>, id: StripeId): seq<Price>
  {
    seq(|prices|, i requires 0 <= i < |prices| => if prices[i].id == id then prices[i].(active := false) else prices[i])
  }

  /** `prices` after the price `id` has been given the tax behaviour `behavior`. */
  function WithTaxBehavior(prices: seq<Price>, id: StripeId, behavior: string): seq<Price>
  {
    seq(|prices|, i requires 0 <= i < |prices| => if prices[i].id == id then prices[i].(taxBehavior := Some(behavior)) else prices[i])
  }

  /** Patching a price's tax behaviour and then listing a product's prices is listing them and then patching. */
  lemma {:induction false} PricesOfWithTaxBehavior(prices: seq<Price>, product: StripeId, id: StripeId, behavior: string)
    ensures PricesOf(WithTaxBehavior(prices, id, behavior), product)
            == WithTaxBehavior(PricesOf(prices, product), id, behavior)
  {
    if prices != [] {
      var head, rest := prices[0], prices[1..];
      assert prices == [head] + rest;
      WithTaxBehaviorCons(head, rest, id, behavior);
      PricesOfWithTaxBehavior(rest, product, id, behavior);
      if head.product == product {
        WithTaxBehaviorCons(head, PricesOf(rest, product), id, behavior);
      }
    }
  }

  /** Patching a list with a first price is patching the first price and the rest. */
  lemma WithTaxBehaviorCons(head: Price, rest: seq<Price>, id: StripeId, behavior: string)
    ensures WithTaxBehavior([head] + rest, id, behavior)
            == [if head.id == id then head.(taxBehavior := Some(behavior)) else head]
               + WithTaxBehavior(rest, id, behavior)
  {
  }

  class Account {
    var products: set<StripeId>
    var customers: set<StripeId>
    var prices: seq<Price>
    var sessions: seq<CheckoutSession>
    var serial: nat

    /** Every identifier in use was issued before the counter's current value. */
    ghost predicate Valid()
      reads this
    {
      && (forall id :: id in products ==> id.serial < serial)
      && (forall id :: id in customers ==> id.serial < serial)
      && (forall i :: 0 <= i < |prices| ==> prices[i].id.serial < serial)
      && (forall i :: 0 <= i < |sessions| ==> sessions[i].id.serial < serial)
    }

    constructor ()
      ensures Valid()
      ensures products == {} && customers == {} && prices == [] && sessions == [] && serial == 0
    {
      products, customers, prices, sessions, serial := {}, {}, [], [], 0;
    }

    method CreateProduct() returns (id: StripeId)
      requires Valid()
      modifies this
      ensures Valid()
      ensures id == StripeId("prod", old(serial)) && id !in old(products)
      ensures products == old(products) + {id} && serial == old(serial) + 1
      ensures customers == old(customers) && prices == old(prices) && sessions == old(sessions)
    {
      id := StripeId("prod", serial);
      products := products + {id};
      serial := serial + 1;
    }

    method CreateCustomer() returns (id: StripeId)
      requires Valid()
      modifies this
      ensures Valid()
      ensures id == StripeId("cus", old(serial)) && id !in old(customers)
      ensures customers == old(customers) + {id} && serial == old(serial) + 1
      ensures products == old(products) && prices == old(prices) && sessions == old(sessions)
    {
      id := StripeId("cus", serial);
      customers := customers + {id};
      serial := serial + 1;
    }

    /** A new price is active and is listed before all older ones. */
    method CreatePrice(request: PriceRequest) returns (price: Price)
      requires Valid()
      modifies this
      ensures Valid()
      ensures price == Price(StripeId("price", old(serial)), request.product, true, request.unitAmount,
                             request.currency, request.taxBehavior)
      ensures prices == [price] + old(prices) && serial == old(serial) + 1
      ensures products == old(products) && customers == old(customers) && sessions == old(sessions)
    {
      price := Price(StripeId("price", serial), request.product, true, request.unitAmount,
                     request.currency, request.taxBehavior);
      prices := [price] + prices;
      serial := serial + 1;
    }

    method Deactivate(id: StripeId)
      requires Valid()
      modifies this`prices
      ensures Valid()
      ensures prices == Deactivated(old(prices), id)
    {
      prices := Deactivated(prices, id);
    }

    method SetTaxBehavior(id: StripeId, behavior: string)
      requires Valid()
      modifies this`prices
      ensures Valid()
      ensures prices == WithTaxBehavior(old(prices), id, behavior)
    {
      prices := WithTaxBehavior(prices, id, behavior);
    }

    method CreateCheckoutSession(mode: string, lineItems: seq<LineItem>, customer: StripeId, automaticTax: bool)
      returns (id: StripeId)
      requires Valid()
      modifies this
      ensures Valid()
      ensures id == StripeId("cs", old(serial)) && serial == old(serial) + 1
      ensures forall s :: s in old(sessions) ==> s.id != id
      ensures sessions == old(sessions) + [CheckoutSession(id, mode, lineItems, customer, automaticTax)]
      ensures products == old(products) && customers == old(customers) && prices == old(prices)
    {
      id := StripeId("cs", serial);
      sessions := sessions + [CheckoutSession(id, mode, lineItems, customer, automaticTax)];
      serial := serial + 1;
    }
  }
}
