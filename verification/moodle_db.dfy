/**
 * The plugin's tables in the Moodle database, held in memory: Stripe products
 * keyed by the purchasable item, Stripe customers keyed by Moodle user, saved
 * payment intents keyed by intent, and the log of course deliveries made.
 */
module MoodleDb {
  import opened Stripe

  /** The item a payment is for: (component, paymentarea, itemid). */
  datatype ProductKey = ProductKey(component: string, paymentArea: string, itemId: string)

  /** A row of the intents table. */
  datatype IntentRow = IntentRow(
    userId: int,
    paymentIntent: StripeId,
    customerId: StripeId,
    amountTotal: int,
    paymentStatus: string,
    status: string,
    productId: StripeId)

  /**
   * One delivery of a purchased item to a user, recorded together with the
   * mode and payment intent of the checkout session it was made for.
   */
  datatype Delivery = Delivery(item: ProductKey, userId: int, sessionMode: string, paymentIntent: StripeId)

  class Ledger {
    var products: map<ProductKey, StripeId>
    var customers: map<int, StripeId>
    var intents: map<StripeId, IntentRow>
    var deliveries: seq<Delivery>

    constructor ()
      ensures products == map[] && customers == map[] && intents == map[] && deliveries == []
    {
      products, customers, intents, deliveries := map[], map[], map[], [];
    }
  }
}
