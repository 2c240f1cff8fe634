/**
 * The two constant price tables of the storefront: the product catalog that
 * the cart copies from, and the separate subscription price table that the
 * subscription form reads. Prices are in cents, because the catalog's 9.99
 * has no exact integer value in dollars.
 */
module Catalog {
  import opened Wrappers

  datatype Product = Product(name: string, price: nat, unit: string, description: string)

  /** The catalog, keyed by product key. */
  const Products: map<string, Product> := map[
    "bundle" := Product("Bundle", 999, "bundle", "0.75 cubic feet"),
    "halffacecord" := Product("1/2 Face Cord", 21900, "delivery", "21.33 cubic feet"),
    "facecord" := Product("1 Face Cord", 39900, "delivery", "42.67 cubic feet"),
    "ibctote" := Product("IBC Tote", 34900, "delivery", "35.3 cubic feet")
  ]

  /** The subscription price table. Its bundle entry is keyed `bundle-10`, not `bundle`. */
  const SubscriptionPricing: map<string, nat> := map[
    "bundle-10" := 9250,
    "halffacecord" := 19700,
    "facecord" := 35900,
    "ibctote" := 31400
  ]

  /** The subscription price looked up by a product key; a key without an entry has no price. */
  function SubscriptionPrice(product: string): (r: Option<nat>)
    ensures r.Some? ==> product in SubscriptionPricing && r.value == SubscriptionPricing[product]
    ensures r.None? ==> product !in SubscriptionPricing
  {
    if product in SubscriptionPricing then Some(SubscriptionPricing[product]) else None
  }

  /** Of the catalog's products, every one but `bundle` has a subscription price. */
  lemma SubscriptionPriceCoverage(product: string)
    requires product in Products
    ensures SubscriptionPrice(product).None? <==> product == "bundle"
  {
  }

  /**
   * Where both tables have the product, the subscription price is the catalog
   * price less 10%, rounded down to whole dollars.
   */
  lemma SubscriptionDiscount(product: string)
    requires product in Products && product in SubscriptionPricing
    ensures SubscriptionPricing[product] == Products[product].price * 9 / 10 / 100 * 100
    ensures SubscriptionPricing[product] < Products[product].price
  {
  }

  /** The worked examples: a face cord subscribes at 359 dollars; `bundle` has no subscription price. */
  lemma SubscriptionPriceExamples()
    ensures SubscriptionPrice("facecord") == Some(35900)
    ensures SubscriptionPrice("bundle") == None
    ensures SubscriptionPrice("bundle-10") == Some(9250)
  {
  }
}
