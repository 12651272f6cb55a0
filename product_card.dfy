/**
 * The product tile (client/src/components/ProductCard.tsx): its stock and
 * name fallbacks, the add-to-cart guard, the stock badges and the star row.
 */
module ProductCard {
  import opened Js
  import opened ClientTypes
  import AppContext
  import ProductsPage

  /** `product.stock ?? product.countInStock ?? 0`: only an absent value falls through. */
  function CardStock(p: Product): (r: int)
    ensures p.stock.Some? ==> r == p.stock.value
    ensures p.stock.None? && p.countInStock.Some? ==> r == p.countInStock.value
    ensures p.stock.None? && p.countInStock.None? ==> r == 0
  {
    p.stock.GetOr(p.countInStock.GetOr(0))
  }

  /**
   * The listing and the tile disagree about a product whose stock is an
   * explicit 0 but whose countInStock is not: the listing's in-stock filter
   * (`||`) keeps it as in stock, the tile (`??`) shows it out of stock and
   * refuses to add it.
   */
  lemma StockFallbacksDisagree(p: Product, n: int)
    requires p.stock == Some(0) && p.countInStock == Some(n) && n != 0
    ensures CardStock(p) == 0
    ensures ProductsPage.ListingStock(p) == n
    ensures HandleAddToCart(p).None?
  {
  }

  /** The two fallbacks agree whenever stock is absent or non-zero. */
  lemma StockFallbacksAgree(p: Product)
    requires p.stock.None? || p.stock.value != 0
    requires p.countInStock.None? || p.countInStock.value != 0
    ensures CardStock(p) == ProductsPage.ListingStock(p)
  {
  }

  /** `handleAddToCart`: the action dispatched, if any. */
  function HandleAddToCart(p: Product): (r: Option<AppContext.Action>)
    ensures r.Some? <==> CardStock(p) > 0
    ensures r.Some? ==> r.value == AppContext.AddToCart(p)
  {
    if CardStock(p) > 0 then Some(AppContext.AddToCart(p)) else None
  }

  /** The 'Low Stock' badge. */
  predicate LowStock(p: Product) {
    CardStock(p) <= 5 && CardStock(p) > 0
  }

  /** The "Only N left!" note. */
  predicate OnlyFewLeft(p: Product) {
    CardStock(p) <= 10 && CardStock(p) > 0
  }

  /** 'In Stock' versus 'Out of Stock'. */
  predicate InStockBadge(p: Product) {
    CardStock(p) > 0
  }

  /** Each badge shows only for an in-stock product, and low stock implies the few-left note. */
  lemma BadgesNest(p: Product)
    ensures LowStock(p) ==> OnlyFewLeft(p)
    ensures OnlyFewLeft(p) ==> InStockBadge(p) && HandleAddToCart(p).Some?
    ensures LowStock(p) <==> 1 <= CardStock(p) <= 5
    ensures OnlyFewLeft(p) <==> 1 <= CardStock(p) <= 10
  {
  }

  /** `renderStars(product.rating || 0)`: five stars, star i filled when i < floor(rating). */
  function Stars(rating: real): (r: seq<bool>)
    ensures |r| == 5
    ensures forall i :: 0 <= i < 5 ==> (r[i] <==> (i as real) < rating.Floor as real)
  {
    seq(5, i requires 0 <= i < 5 => i < rating.Floor)
  }

  /** The number of filled stars is floor(rating) clipped to 0..5. */
  function Filled(stars: seq<bool>): nat {
    if stars == [] then 0 else (if stars[0] then 1 else 0) + Filled(stars[1..])
  }

  lemma {:induction false} FilledPrefix(stars: seq<bool>, k: nat)
    requires k <= |stars|
    requires forall i :: 0 <= i < |stars| ==> (stars[i] <==> i < k)
    ensures Filled(stars) == k
    decreases |stars|
  {
    if stars != [] {
      var t := stars[1..];
      if k > 0 {
        forall i | 0 <= i < |t| ensures t[i] <==> i < k - 1 {
          assert t[i] == stars[i + 1];
        }
        FilledPrefix(t, k - 1);
      } else {
        forall i | 0 <= i < |t| ensures t[i] <==> i < 0 {
          assert t[i] == stars[i + 1];
        }
        FilledPrefix(t, 0);
      }
    }
  }

  lemma StarsCount(p: Product)
    ensures var n := ProductsPage.RatingOr0(p).Floor;
      Filled(Stars(ProductsPage.RatingOr0(p))) == if n < 0 then 0 else if n > 5 then 5 else n
  {
    var rating := ProductsPage.RatingOr0(p);
    var n := rating.Floor;
    var k: nat := if n < 0 then 0 else if n > 5 then 5 else n;
    var stars := Stars(rating);
    forall i | 0 <= i < |stars| ensures stars[i] <==> i < k {
      assert stars[i] <==> (i as real) < n as real;
    }
    FilledPrefix(stars, k);
  }

  /** The tile's title uses the listing's display name, `name || title || ''`. */
  lemma NameFallback(p: Product)
    ensures Truthy(p.name) ==> ProductsPage.DisplayName(p) == p.name.value
    ensures !Truthy(p.name) && Truthy(p.title) ==> ProductsPage.DisplayName(p) == p.title.value
    ensures !Truthy(p.name) && !Truthy(p.title) ==> ProductsPage.DisplayName(p) == ""
  {
  }
}
