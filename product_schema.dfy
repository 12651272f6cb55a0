/**
 * The product schema (server/models/Product.js) as a validity predicate and a
 * defaulting function: what a document looks like once the schema's defaults
 * and `trim` have been applied, and which documents its validators accept.
 */
module ProductModel {
  import opened Js

  const Categories: seq<string> := ["games", "consoles", "accessories", "merchandise", "controllers", "pc-gaming"]
  const Platforms: seq<string> := ["PS5", "PS4", "Xbox Series X|S", "Xbox One", "Nintendo Switch", "PC", "Multiple", "Other"]
  const Genres: seq<string> := ["Action", "Adventure", "RPG", "Strategy", "Sports", "Racing", "FPS", "Horror", "Other"]
  const AgeRatings: seq<string> := ["E", "E10+", "T", "M", "A", "RP"]

  /** A value offered for a String path: a string, or an array (which a String path cannot hold). */
  datatype TextValue = One(text: string) | Many(texts: seq<string>)

  /** The fields handed to `Product.create`; `None` is a field left undefined. */
  datatype Draft = Draft(
    name: Option<string>,
    description: Option<string>,
    price: Option<real>,
    stock: Option<int>,
    category: Option<string>,
    platform: Option<TextValue>,
    genre: Option<string>,
    publisher: Option<string>,
    developer: Option<string>,
    rating: Option<real>,
    ageRating: Option<string>)

  /** The document after defaults; only `name` and `price` have no default. */
  datatype Doc = Doc(
    name: Option<string>,
    description: string,
    price: Option<real>,
    stock: int,
    category: string,
    platform: TextValue,
    genre: string,
    publisher: string,
    developer: string,
    rating: real,
    ageRating: string,
    numReviews: int,
    isFeatured: bool)

  /** Schema defaults for undefined paths, and `trim` on name and description. */
  function Prepare(d: Draft): (r: Doc)
    ensures d.name.Some? <==> r.name.Some?
    ensures d.name.Some? ==> r.name.value == Trim(d.name.value)
    ensures d.stock.None? ==> r.stock == 0
    ensures d.category.None? ==> r.category == "games"
    ensures d.platform.None? ==> r.platform == One("Other")
    ensures d.genre.None? ==> r.genre == "Other"
    ensures d.publisher.None? ==> r.publisher == "Independent"
    ensures d.developer.None? ==> r.developer == "Independent"
    ensures d.rating.None? ==> r.rating == 0.0
    ensures d.ageRating.None? ==> r.ageRating == "RP"
    ensures d.description.None? ==> r.description == ""
    ensures r.numReviews == 0 && !r.isFeatured
    ensures r.price == d.price
  {
    Doc(
      if d.name.Some? then Some(Trim(d.name.value)) else None,
      Trim(d.description.GetOr("")),
      d.price,
      d.stock.GetOr(0),
      d.category.GetOr("games"),
      d.platform.GetOr(One("Other")),
      d.genre.GetOr("Other"),
      d.publisher.GetOr("Independent"),
      d.developer.GetOr("Independent"),
      d.rating.GetOr(0.0),
      d.ageRating.GetOr("RP"),
      0,
      false)
  }

  /** The schema's validators: required paths, numeric bounds and the enumerations. */
  predicate Valid(doc: Doc) {
    && doc.name.Some? && doc.name.value != ""
    && doc.price.Some? && doc.price.value >= 0.0
    && doc.stock >= 0
    && doc.category in Categories
    && doc.platform.One? && doc.platform.text in Platforms
    && doc.genre in Genres
    && 0.0 <= doc.rating <= 5.0
    && doc.ageRating in AgeRatings
  }

  /** A draft with only a non-blank name and a non-negative price is valid once defaulted: every default is an allowed value. */
  lemma DefaultsAreValid(name: string, price: real)
    requires Trim(name) != "" && price >= 0.0
    ensures Valid(Prepare(Draft(Some(name), None, Some(price), None, None, None, None, None, None, None, None)))
  {
  }

  /** The name is required, and a blank name fails once trimmed. */
  lemma NameRequired(d: Draft)
    requires d.name.None? || Trim(d.name.value) == ""
    ensures !Valid(Prepare(d))
  {
  }

  /** The price is required and may not be negative; 0 is allowed. */
  lemma PriceBounds(d: Draft)
    ensures d.price.None? ==> !Valid(Prepare(d))
    ensures d.price.Some? && d.price.value < 0.0 ==> !Valid(Prepare(d))
    ensures Valid(Prepare(d)) ==> Prepare(d).price.value >= 0.0
  {
  }

  /** Stock is 0 when omitted and may not be negative; rating is 0 when omitted and lies in [0, 5]. */
  lemma StockAndRatingBounds(d: Draft)
    ensures Valid(Prepare(d)) ==> Prepare(d).stock >= 0 && 0.0 <= Prepare(d).rating <= 5.0
    ensures d.stock.Some? && d.stock.value < 0 ==> !Valid(Prepare(d))
    ensures d.rating.Some? && (d.rating.value < 0.0 || d.rating.value > 5.0) ==> !Valid(Prepare(d))
  {
  }

  /** The platform path holds one string from its list; an array never validates. */
  lemma PlatformIsOneString(d: Draft)
    ensures d.platform.Some? && d.platform.value.Many? ==> !Valid(Prepare(d))
    ensures Valid(Prepare(d)) ==> Prepare(d).platform.One? && Prepare(d).platform.text in Platforms
  {
  }

  /** Category, genre and age rating must each come from their list. */
  lemma EnumsEnforced(d: Draft)
    ensures Valid(Prepare(d)) ==>
      Prepare(d).category in Categories && Prepare(d).genre in Genres && Prepare(d).ageRating in AgeRatings
    ensures d.category == Some("Game") ==> !Valid(Prepare(d))
  {
    if d.category == Some("Game") {
      assert Prepare(d).category == "Game";
      assert "Game" !in Categories;
    }
  }
}
