/**
 * The filter panel (client/src/components/ProductFilters.tsx): `updateFilter`
 * replaces one key of the filter object, `clearFilters` restores the initial
 * filters, and `hasActiveFilters` decides whether the clear button shows.
 */
module ProductFilters {
  import opened ClientTypes
  import ProductsPage

  /** A call `updateFilter(key, value)`, one constructor per key of `FilterOptions`. */
  datatype Update =
    | Category(category: string)
    | Platform(platform: string)
    | PriceRange(lo: real, hi: real)
    | MinRating(rating: real)
    | InStock(inStock: bool)

  /** `{ ...filters, [key]: value }`: the named key takes the value, every other key is kept. */
  function UpdateFilter(f: FilterOptions, u: Update): (r: FilterOptions)
    ensures r.category == (if u.Category? then u.category else f.category)
    ensures r.platform == (if u.Platform? then u.platform else f.platform)
    ensures r.priceLo == (if u.PriceRange? then u.lo else f.priceLo)
    ensures r.priceHi == (if u.PriceRange? then u.hi else f.priceHi)
    ensures r.minRating == (if u.MinRating? then u.rating else f.minRating)
    ensures r.inStock == (if u.InStock? then u.inStock else f.inStock)
  {
    match u
    case Category(c) => f.(category := c)
    case Platform(p) => f.(platform := p)
    case PriceRange(lo, hi) => f.(priceLo := lo, priceHi := hi)
    case MinRating(m) => f.(minRating := m)
    case InStock(b) => f.(inStock := b)
  }

  /** Which key an update names. */
  function Key(u: Update): nat {
    match u
    case Category(_) => 0
    case Platform(_) => 1
    case PriceRange(_, _) => 2
    case MinRating(_) => 3
    case InStock(_) => 4
  }

  /** Repeating an update changes nothing more, and updates of different keys commute. */
  lemma UpdateLaws(f: FilterOptions, u: Update, v: Update)
    ensures UpdateFilter(UpdateFilter(f, u), u) == UpdateFilter(f, u)
    ensures Key(u) != Key(v) ==> UpdateFilter(UpdateFilter(f, u), v) == UpdateFilter(UpdateFilter(f, v), u)
    ensures Key(u) == Key(v) ==> UpdateFilter(UpdateFilter(f, u), v) == UpdateFilter(f, v)
  {
  }

  /** `clearFilters`: the page's initial filters. */
  function ClearFilters(): (r: FilterOptions)
    ensures r.category == "" && r.platform == "" && r.priceLo == 0.0 && r.priceHi == 100.0
    ensures r.minRating == 0.0 && !r.inStock
    ensures r == ProductsPage.InitialFilters
  {
    FilterOptions("", "", 0.0, 100.0, 0.0, false)
  }

  predicate HasActiveFilters(f: FilterOptions) {
    f.category != "" || f.platform != "" || f.priceLo > 0.0 || f.priceHi < 100.0 || f.minRating > 0.0 || f.inStock
  }

  /**
   * The clear button shows exactly when the filters differ from the cleared
   * ones, for filters the panel's controls can produce (bounds within the
   * slider's 0 to 100, a rating of at least 0).
   */
  lemma ActiveIffNotCleared(f: FilterOptions)
    requires 0.0 <= f.priceLo && f.priceHi <= 100.0 && f.minRating >= 0.0
    ensures HasActiveFilters(f) <==> f != ClearFilters()
  {
  }

  /** The price slider: `[filters.priceRange[0], value]`. */
  function SliderMoved(f: FilterOptions, value: int): (r: FilterOptions)
    ensures r.priceHi == value as real
    ensures r == f.(priceHi := value as real)
  {
    UpdateFilter(f, PriceRange(f.priceLo, value as real))
  }

  /** The lower bound is never moved by the panel: after clearing and any slider moves it is 0. */
  lemma {:induction false} SliderKeepsLowerBound(f: FilterOptions, moves: seq<int>)
    ensures SliderRun(f, moves).priceLo == f.priceLo
    ensures moves != [] ==> SliderRun(f, moves).priceHi == moves[|moves| - 1] as real
  {
    if moves != [] {
      SliderKeepsLowerBound(f, moves[..|moves| - 1]);
    }
  }

  function SliderRun(f: FilterOptions, moves: seq<int>): FilterOptions {
    if moves == [] then f else SliderMoved(SliderRun(f, moves[..|moves| - 1]), moves[|moves| - 1])
  }
}
