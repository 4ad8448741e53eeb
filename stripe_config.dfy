/** The product catalogue and its two lookups. */
module StripeConfig {
  import opened Wrappers
  import opened Seqs

  datatype Mode = Payment | Subscription

  /** A catalogue entry; the price is in cents (the catalogue writes dollars as a number). */
  datatype Product = Product(
    id: string, priceId: string, name: string, description: string,
    priceCents: nat, currency: string, mode: Mode)

  const Products: seq<Product> := [
    Product("prod_Ts4tDUH8uijjs6", "price_1SuKjuLjj7dwILwNnn1ZX8K7", "Bolt Namer",
            "Premium naming service subscription", 500, "usd", Subscription)
  ]

  /** The first product with this id, or none when no product has it. */
  function GetProductById(id: string): (r: Option<Product>)
    ensures r.None? <==> forall p :: p in Products ==> p.id != id
    ensures r.Some? ==> r.value.id == id
    ensures r.Some? ==> exists i :: 0 <= i < |Products| && Products[i] == r.value
                                   && forall p :: p in Products[..i] ==> p.id != id
  {
    Find((p: Product) => p.id == id, Products)
  }

  /** The first product with this price id, or none when no product has it. */
  function GetProductByPriceId(priceId: string): (r: Option<Product>)
    ensures r.None? <==> forall p :: p in Products ==> p.priceId != priceId
    ensures r.Some? ==> r.value.priceId == priceId
    ensures r.Some? ==> exists i :: 0 <= i < |Products| && Products[i] == r.value
                                   && forall p :: p in Products[..i] ==> p.priceId != priceId
  {
    Find((p: Product) => p.priceId == priceId, Products)
  }

  /** The shipped price id resolves to the subscription product "Bolt Namer". */
  lemma ShippedPriceResolves()
    ensures GetProductByPriceId("price_1SuKjuLjj7dwILwNnn1ZX8K7").Some?
    ensures GetProductByPriceId("price_1SuKjuLjj7dwILwNnn1ZX8K7").value.name == "Bolt Namer"
    ensures GetProductByPriceId("price_1SuKjuLjj7dwILwNnn1ZX8K7").value.mode == Subscription
  {
    assert Products[0].priceId == "price_1SuKjuLjj7dwILwNnn1ZX8K7";
  }
}
