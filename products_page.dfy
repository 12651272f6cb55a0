/**
 * The catalogue listing (client/src/pages/ProductsPage.tsx): the filter
 * callback behind `filteredProducts`, the sort orders applied to the kept
 * products, and the pagination arithmetic with its Previous / Next clamps.
 */
module ProductsPage {
  import opened Js
  import opened ClientTypes
  import Sorting

  const ItemsPerPage: nat := 12

  /** The filters the page starts with, which are also what clearing them restores. */
  const InitialFilters: FilterOptions := FilterOptions("", "", 0.0, 100.0, 0.0, false)

  /** `product.name || product.title || ''`. */
  function DisplayName(p: Product): string {
    OrElse(Or(p.name, p.title), "")
  }

  /** `Array.isArray(product.platform) ? product.platform : []`. */
  function PlatformsOf(p: Product): seq<string> {
    match p.platform
    case PlatformList(names) => names
    case PlatformName(_) => []
  }

  /** `product.rating || 0`. */
  function RatingOr0(p: Product): real {
    p.rating.GetOr(0.0)
  }

  /** `product.stock || product.countInStock || 0`: a stock of 0 falls through to countInStock. */
  function ListingStock(p: Product): int {
    if p.stock.Some? && p.stock.value != 0 then p.stock.value
    else if p.countInStock.Some? && p.countInStock.value != 0 then p.countInStock.value
    else 0
  }

  /** The filter callback: one early `return false` per rule, in the source's order. */
  predicate Keep(p: Product, term: string, f: FilterOptions) {
    if term != "" && !Includes(Lower(DisplayName(p)), Lower(term)) then false
    else if f.category != "" && p.category != f.category then false
    else if f.platform != "" && f.platform !in PlatformsOf(p) then false
    else if p.price < f.priceLo || p.price > f.priceHi then false
    else if RatingOr0(p) < f.minRating then false
    else if f.inStock && ListingStock(p) == 0 then false
    else true
  }

  /** A product is kept exactly when it passes all six rules; an unset rule passes everything. */
  lemma KeepRules(p: Product, term: string, f: FilterOptions)
    ensures Keep(p, term, f) <==>
      && (term != "" ==> Includes(Lower(DisplayName(p)), Lower(term)))
      && (f.category != "" ==> p.category == f.category)
      && (f.platform != "" ==> p.platform.PlatformList? && f.platform in p.platform.names)
      && f.priceLo <= p.price <= f.priceHi
      && (if p.rating.Some? then p.rating.value else 0.0) >= f.minRating
      && (f.inStock ==> ListingStock(p) != 0)
  {
  }

  lemma {:induction false} LowerIdempotent(s: string)
    ensures Lower(Lower(s)) == Lower(s)
  {
    var t := Lower(s);
    forall i | 0 <= i < |s| ensures Lower(t)[i] == t[i] {
      assert t[i] == LowerChar(s[i]);
    }
  }

  /** The search ignores the case of the search term. */
  lemma SearchIgnoresCase(p: Product, term: string, f: FilterOptions)
    ensures Keep(p, Lower(term), f) == Keep(p, term, f)
  {
    LowerIdempotent(term);
    assert term != "" <==> Lower(term) != "" by {
      assert |Lower(term)| == |term|;
    }
  }

  /** With the initial (or cleared) filters and no search, exactly the products priced 0 to 100 with a non-negative rating are kept. */
  lemma InitialFiltersKeep(p: Product)
    ensures Keep(p, "", InitialFilters) <==> 0.0 <= p.price <= 100.0 && RatingOr0(p) >= 0.0
  {
  }

  /** `products.filter(keep)`. */
  function Filtered(s: seq<Product>, term: string, f: FilterOptions): (r: seq<Product>)
    ensures |r| <= |s|
  {
    if s == [] then []
    else (if Keep(s[0], term, f) then [s[0]] else []) + Filtered(s[1..], term, f)
  }

  /** The filtered list holds every kept product as often as the catalogue does, and nothing else. */
  lemma {:induction false} FilteredSpec(s: seq<Product>, term: string, f: FilterOptions)
    ensures forall p :: p in Filtered(s, term, f) <==> p in s && Keep(p, term, f)
    ensures forall p :: Keep(p, term, f) ==> multiset(Filtered(s, term, f))[p] == multiset(s)[p]
  {
    if s != [] {
      FilteredSpec(s[1..], term, f);
      assert s == [s[0]] + s[1..];
    }
  }

  /** The sort keys: `a.price || 0`, `a.rating || 0`, and `releaseDate ? getTime() : 0`. */
  function PriceKey(p: Product): real {
    p.price
  }

  function RatingKey(p: Product): real {
    RatingOr0(p)
  }

  /** `time` stands for `new Date(s).getTime()`, which this model does not interpret. */
  function DateKey(time: string -> real, p: Product): real {
    if Truthy(p.releaseDate) then time(p.releaseDate.value) else 0.0
  }

  /** `aName.localeCompare(bName)` on display names, as code-unit order. */
  function ByName(): (Product, Product) -> bool {
    (a: Product, b: Product) => CodeUnitLess(DisplayName(a), DisplayName(b))
  }

  /** The comparator the `sortBy` value selects; 'name' and any unknown value sort by name. */
  function Comparator(sortBy: string, time: string -> real): (Product, Product) -> bool {
    if sortBy == "price-low" then Sorting.ByKey(PriceKey, false)
    else if sortBy == "price-high" then Sorting.ByKey(PriceKey, true)
    else if sortBy == "rating" then Sorting.ByKey(RatingKey, true)
    else if sortBy == "newest" then Sorting.ByKey((p: Product) => DateKey(time, p), true)
    else ByName()
  }

  lemma ComparatorStrict(sortBy: string, time: string -> real)
    ensures Sorting.StrictOrder(Comparator(sortBy, time))
  {
    Sorting.ByKeyStrict(PriceKey, false);
    Sorting.ByKeyStrict(PriceKey, true);
    Sorting.ByKeyStrict(RatingKey, true);
    Sorting.ByKeyStrict((p: Product) => DateKey(time, p), true);
    var c := ByName();
    forall x ensures !c(x, x) {
      CodeUnitLessIrreflexive(DisplayName(x));
    }
    forall x, y, z | c(x, y) && c(y, z) ensures c(x, z) {
      CodeUnitLessTransitive(DisplayName(x), DisplayName(y), DisplayName(z));
    }
  }

  /**
   * `filteredProducts`: the kept products, sorted. The memo returns the
   * sorted copy; its final `return filtered` is never reached.
   */
  function Listing(products: seq<Product>, term: string, f: FilterOptions, sortBy: string, time: string -> real): seq<Product> {
    Sorting.Sort(Comparator(sortBy, time), Filtered(products, term, f))
  }

  /** The listing is a permutation of the filtered products, in the order `sortBy` names. */
  lemma ListingSpec(products: seq<Product>, term: string, f: FilterOptions, sortBy: string, time: string -> real)
    ensures var r := Listing(products, term, f, sortBy, time);
      && multiset(r) == multiset(Filtered(products, term, f))
      && (forall p :: p in r <==> p in products && Keep(p, term, f))
      && (sortBy == "price-low" ==> forall i, j :: 0 <= i < j < |r| ==> r[i].price <= r[j].price)
      && (sortBy == "price-high" ==> forall i, j :: 0 <= i < j < |r| ==> r[i].price >= r[j].price)
      && (sortBy == "rating" ==> forall i, j :: 0 <= i < j < |r| ==> RatingOr0(r[i]) >= RatingOr0(r[j]))
      && (sortBy == "newest" ==> forall i, j :: 0 <= i < j < |r| ==> DateKey(time, r[i]) >= DateKey(time, r[j]))
      && (sortBy !in ["price-low", "price-high", "rating", "newest"] ==>
            forall i, j :: 0 <= i < j < |r| ==> !CodeUnitLess(DisplayName(r[j]), DisplayName(r[i])))
  {
    var kept := Filtered(products, term, f);
    FilteredSpec(products, term, f);
    SortedPermutes(kept, sortBy, time);
    if sortBy == "price-low" {
      Sorting.SortByKeyCorrect(PriceKey, false, kept);
    } else if sortBy == "price-high" {
      Sorting.SortByKeyCorrect(PriceKey, true, kept);
    } else if sortBy == "rating" {
      Sorting.SortByKeyCorrect(RatingKey, true, kept);
    } else if sortBy == "newest" {
      Sorting.SortByKeyCorrect((p: Product) => DateKey(time, p), true, kept);
    } else {
      SortedByName(kept);
    }
  }

  lemma SortedPermutes(kept: seq<Product>, sortBy: string, time: string -> real)
    ensures var r := Sorting.Sort(Comparator(sortBy, time), kept);
      multiset(r) == multiset(kept) && forall p :: p in r <==> p in kept
  {
    var c := Comparator(sortBy, time);
    ComparatorStrict(sortBy, time);
    Sorting.SortCorrect(c, kept);
    var r := Sorting.Sort(c, kept);
    forall p ensures p in r <==> p in kept {
      assert p in r <==> p in multiset(r);
    }
  }

  lemma SortedByName(kept: seq<Product>)
    ensures var r := Sorting.Sort(ByName(), kept);
      forall i, j :: 0 <= i < j < |r| ==> !CodeUnitLess(DisplayName(r[j]), DisplayName(r[i]))
  {
    ComparatorStrict("name", (s: string) => 0.0);
    assert Comparator("name", (s: string) => 0.0) == ByName();
    Sorting.SortCorrect(ByName(), kept);
    var r := Sorting.Sort(ByName(), kept);
    forall i, j | 0 <= i < j < |r| ensures !CodeUnitLess(DisplayName(r[j]), DisplayName(r[i])) {
      assert !ByName()(r[j], r[i]);
    }
  }

  /** `Math.ceil(n / itemsPerPage)`. */
  function TotalPages(n: nat): (r: nat)
    ensures r * ItemsPerPage >= n
    ensures n > 0 ==> (r - 1) * ItemsPerPage < n
    ensures r == 0 <==> n == 0
  {
    (n + ItemsPerPage - 1) / ItemsPerPage
  }

  /** `slice((currentPage - 1) * itemsPerPage, currentPage * itemsPerPage)`. */
  function Page<T>(s: seq<T>, currentPage: int): (r: seq<T>)
    ensures |r| <= ItemsPerPage
    ensures currentPage >= 1 && (currentPage - 1) * ItemsPerPage <= |s| ==>
      r == s[(currentPage - 1) * ItemsPerPage .. if currentPage * ItemsPerPage <= |s| then currentPage * ItemsPerPage else |s|]
    ensures currentPage >= 1 && (currentPage - 1) * ItemsPerPage >= |s| ==> r == []
  {
    Slice(s, (currentPage - 1) * ItemsPerPage, currentPage * ItemsPerPage)
  }

  /** Pages 1 to k, one after another. */
  function Pages<T>(s: seq<T>, k: nat): seq<T> {
    if k == 0 then [] else Pages(s, k - 1) + Page(s, k)
  }

  /** The first k pages are the first min(12k, n) products: pages neither overlap nor skip. */
  lemma {:induction false} PagesPrefix<T>(s: seq<T>, k: nat)
    ensures Pages(s, k) == s[..if k * ItemsPerPage <= |s| then k * ItemsPerPage else |s|]
  {
    if k > 0 {
      PagesPrefix(s, k - 1);
    }
  }

  /** Pages 1 to TotalPages show every listed product exactly once, in order. */
  lemma PagesCover<T>(s: seq<T>)
    ensures Pages(s, TotalPages(|s|)) == s
  {
    PagesPrefix(s, TotalPages(|s|));
  }

  /** The page buttons: Previous, Next, or a numbered one. */
  datatype PageEvent = Previous | Next | Numbered(page: int)

  /**
   * `Math.max(1, currentPage - 1)`, `Math.min(totalPages, currentPage + 1)`,
   * or the button's own number. The numbered buttons run from 1 to totalPages.
   */
  function PageAfter(e: PageEvent, currentPage: int, totalPages: nat): (r: int)
    requires e.Numbered? ==> 1 <= e.page <= totalPages
    ensures 1 <= currentPage <= totalPages ==> 1 <= r <= totalPages
    ensures e == Previous ==> r == (if currentPage > 1 then currentPage - 1 else 1)
    ensures e == Next ==> r == (if currentPage < totalPages then currentPage + 1 else totalPages)
  {
    match e
    case Previous => if 1 > currentPage - 1 then 1 else currentPage - 1
    case Next => if totalPages < currentPage + 1 then totalPages else currentPage + 1
    case Numbered(k) => k
  }

  /** Previous undoes Next and Next undoes Previous away from the ends. */
  lemma PreviousNextInverse(p: int, totalPages: nat)
    requires 1 <= p <= totalPages
    ensures p < totalPages ==> PageAfter(Previous, PageAfter(Next, p, totalPages), totalPages) == p
    ensures p > 1 ==> PageAfter(Next, PageAfter(Previous, p, totalPages), totalPages) == p
  {
  }

  /**
   * The page shown keeps its number when the filters change. Once the listing
   * shrinks to one page the pagination bar (shown only for more than one page)
   * disappears, and a page number above 1 shows no products although some match.
   */
  lemma StalePageShowsNothing(s: seq<Product>)
    requires 0 < |s| <= ItemsPerPage
    ensures Page(s, 2) == [] && TotalPages(|s|) == 1
  {
  }

  /** The page to render: the current page clamped into the pages that exist. */
  function ShownPage(n: nat, currentPage: int): (r: int)
    ensures 1 <= r
    ensures n > 0 ==> r <= TotalPages(n)
    ensures 1 <= currentPage <= TotalPages(n) ==> r == currentPage
  {
    if currentPage > TotalPages(n) then (if TotalPages(n) > 0 then TotalPages(n) else 1)
    else if currentPage < 1 then 1
    else currentPage
  }

  /** With the clamp, a non-empty listing never shows an empty page. */
  lemma ShownPageNonEmpty<T>(s: seq<T>, currentPage: int)
    requires |s| > 0
    ensures Page(s, ShownPage(|s|, currentPage)) != []
  {
    var p := ShownPage(|s|, currentPage);
    assert (p - 1) * ItemsPerPage < |s|;
  }
}
