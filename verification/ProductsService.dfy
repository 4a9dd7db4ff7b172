/** Creating and updating products with variants: price is the cheapest variant, stock their sum. */
module ProductsService {
  import opened Base
  import Text
  import opened Streams
  import opened Variants
  import opened Shop
  import opened StockLedger

  datatype ProductError = SellerRequired | ProductMissing | NotYourProduct | BadVariants(why: Refusal)

  /** A product whose price and stock are derived from its accepted variants. */
  ghost predicate Derived(p: Product) {
    && p.variants.Some? && Acceptable(p.variants.value) && Normal(p.variants.value)
    && IsMinPrice(p.variants.value.items, p.price)
    && p.stock == StockSum(p.variants.value.items)
  }

  class ProductsService {
    var products: Products

    constructor ()
      ensures products == map[]
    {
      products := map[];
    }

    /** `id` is the new product's id; without a variants payload the given price and stock stand. */
    method Create(h: Host, id: ProductId, seller: Option<SellerId>, price: real, stock: nat, variants: Raw)
      returns (r: Result<(), ProductError>)
      requires id !in products
      modifies this
      ensures r.Ok? <==> seller.Some? && (!variants.Absent? ==> Acceptable(Read(h, variants)))
      ensures r.Err? ==> products == old(products)
      ensures r.Ok? ==>
                id in products && products == old(products)[id := products[id]] && products[id].seller == seller.value
      ensures r.Ok? && variants.Absent? ==> products[id] == Product(seller.value, price, stock, None)
      ensures r.Ok? && !variants.Absent? ==> Derived(products[id]) && products[id].variants == Some(Read(h, variants))
    {
      if seller.None? {
        return Err(SellerRequired);
      }
      if variants.Absent? {
        products := products[id := Product(seller.value, price, stock, None)];
        return Ok(());
      }
      var norm := ValidateAndNormalize(h, variants);
      if norm.Err? {
        return Err(BadVariants(norm.error));
      }
      ReadIsNormal(h, variants);
      products := products[id := Product(seller.value, norm.value.minPrice, norm.value.totalStock,
                                         Some(Read(h, variants)))];
      r := Ok(());
    }

    /** Only the owner; without a variants payload the price and stock given, if any, are written as they are. */
    method Update(h: Host, id: ProductId, seller: SellerId, price: Option<real>, stock: Option<nat>,
                  variants: Option<Raw>)
      returns (r: Result<(), ProductError>)
      modifies this
      ensures r.Ok? <==> id in old(products) && old(products)[id].seller == seller
                         && (variants.Some? ==> !variants.value.Absent? && Acceptable(Read(h, variants.value)))
      ensures r.Err? ==> products == old(products)
      ensures r.Ok? ==> id in products && products == old(products)[id := products[id]] && products[id].seller == seller
      ensures r.Ok? && variants.Some? ==>
                Derived(products[id]) && products[id].variants == Some(Read(h, variants.value))
      ensures r.Ok? && variants.None? ==>
                var was := old(products)[id];
                products[id] == was.(price := price.GetOr(was.price),
                                     stock := if stock.Some? then stock.value else was.stock)
    {
      if id !in products {
        return Err(ProductMissing);
      }
      var p := products[id];
      if p.seller != seller {
        return Err(NotYourProduct);
      }
      if variants.None? {
        products := products[id := p.(price := price.GetOr(p.price),
                                      stock := if stock.Some? then stock.value else p.stock)];
        return Ok(());
      }
      var norm := ValidateAndNormalize(h, variants.value);
      if norm.Err? {
        return Err(BadVariants(norm.error));
      }
      ReadIsNormal(h, variants.value);
      products := products[id := p.(price := norm.value.minPrice, stock := norm.value.totalStock,
                                    variants := Some(Read(h, variants.value)))];
      r := Ok(());
    }
  }

  /** What the service writes is what the stock ledger starts from. */
  lemma DerivedIsSound(p: Product)
    requires Derived(p)
    ensures SoundProduct(p)
  {
  }
}
