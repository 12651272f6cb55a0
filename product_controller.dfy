/**
 * The server's product controller (server/controllers/productController.js):
 * the validation and defaulting `createProduct` applies before storing, and
 * the not-found handling of get, update and delete. Document ids are drawn
 * from a counter; the store's own validators are the `ProductModel` module.
 */
module ProductController {
  import opened Js

  /** The request's `platform`: absent, a single value, or an array. */
  datatype PlatformInput = Missing | Text(text: string) | List(items: seq<string>)

  /** The fields of a create request, each possibly undefined. */
  datatype CreateRequest = CreateRequest(
    title: Option<string>,
    name: Option<string>,
    description: Option<string>,
    price: Option<real>,
    category: Option<string>,
    stock: Option<int>,
    image: Option<string>,
    platform: PlatformInput,
    developer: Option<string>,
    publisher: Option<string>,
    releaseDate: Option<string>,
    rating: Option<real>,
    genre: Option<string>,
    ageRating: Option<string>)

  /** The `productData` the controller builds. */
  datatype ProductRecord = ProductRecord(
    title: string,
    name: string,
    description: string,
    price: real,
    category: string,
    stock: int,
    image: string,
    platform: seq<string>,
    developer: string,
    publisher: string,
    releaseDate: string,
    rating: real,
    genre: string,
    ageRating: string)

  const DefaultImage: string := "https://images.pexels.com/photos/442576/pexels-photo-442576.jpeg?auto=compress&cs=tinysrgb&w=800"

  datatype Built = Record(record: ProductRecord) | Rejected(message: string)

  /** `Array.isArray(platform) ? platform : [platform || 'PC']`. */
  function PlatformList(p: PlatformInput): (r: seq<string>)
    ensures p.List? ==> r == p.items
    ensures p.Text? && p.text != "" ==> r == [p.text]
    ensures p.Missing? || p == Text("") ==> r == ["PC"]
  {
    match p
    case List(items) => items
    case Text(s) => [if s != "" then s else "PC"]
    case Missing => ["PC"]
  }

  /** A number read with `x || 0`: absent and 0 both give 0. */
  function NumberOr0(x: Option<real>): real {
    if x.Some? && x.value != 0.0 then x.value else 0.0
  }

  /**
   * createProduct before the store call. `today` is the date part of the
   * current time, which the controller reads from the clock.
   */
  function BuildProduct(req: CreateRequest, today: string): (r: Built)
    ensures !Truthy(Or(req.title, req.name)) ==> r == Rejected("Product title is required")
    ensures Truthy(Or(req.title, req.name)) && !(req.price.Some? && req.price.value > 0.0) ==>
      r == Rejected("Valid price is required")
    ensures r.Record? <==> Truthy(Or(req.title, req.name)) && req.price.Some? && req.price.value > 0.0
    ensures r.Record? ==>
      && r.record.title == r.record.name == Or(req.title, req.name).value
      && r.record.price == req.price.value
      && r.record.price > 0.0
      && r.record.platform == PlatformList(req.platform)
  {
    var title := Or(req.title, req.name);
    if !Truthy(title) then Rejected("Product title is required")
    else if req.price.None? || req.price.value == 0.0 || req.price.value < 0.0 then Rejected("Valid price is required")
    else Record(ProductRecord(
      title.value,
      title.value,
      OrElse(req.description, ""),
      req.price.value,
      OrElse(req.category, "Game"),
      if req.stock.Some? then req.stock.value else 0,
      OrElse(req.image, DefaultImage),
      PlatformList(req.platform),
      OrElse(req.developer, "Independent"),
      OrElse(req.publisher, "Independent"),
      OrElse(req.releaseDate, today),
      NumberOr0(req.rating),
      OrElse(req.genre, "Other"),
      OrElse(req.ageRating, "RP")))
  }

  /** The title falls back to the name: `title || name`. */
  lemma TitleFallsBackToName(req: CreateRequest, today: string)
    requires !Truthy(req.title) && Truthy(req.name) && req.price.Some? && req.price.value > 0.0
    ensures BuildProduct(req, today).Record? && BuildProduct(req, today).record.title == req.name.value
  {
  }

  /** A price of 0 is refused, as a missing one is. */
  lemma ZeroPriceRefused(req: CreateRequest, today: string)
    requires Truthy(Or(req.title, req.name)) && req.price == Some(0.0)
    ensures BuildProduct(req, today) == Rejected("Valid price is required")
  {
  }

  /**
   * Field by field, whatever else the request holds: a value sent (and truthy)
   * is kept, and one omitted or empty takes the controller's default.
   */
  lemma Defaults(req: CreateRequest, today: string)
    requires BuildProduct(req, today).Record?
    ensures var rec := BuildProduct(req, today).record;
      && (Truthy(req.description) ==> rec.description == req.description.value)
      && (!Truthy(req.description) ==> rec.description == "")
      && (Truthy(req.category) ==> rec.category == req.category.value)
      && (!Truthy(req.category) ==> rec.category == "Game")
      && (req.stock.Some? ==> rec.stock == req.stock.value)
      && (req.stock.None? ==> rec.stock == 0)
      && (Truthy(req.image) ==> rec.image == req.image.value)
      && (!Truthy(req.image) ==> rec.image == DefaultImage)
      && (Truthy(req.developer) ==> rec.developer == req.developer.value)
      && (!Truthy(req.developer) ==> rec.developer == "Independent")
      && (Truthy(req.publisher) ==> rec.publisher == req.publisher.value)
      && (!Truthy(req.publisher) ==> rec.publisher == "Independent")
      && (Truthy(req.releaseDate) ==> rec.releaseDate == req.releaseDate.value)
      && (!Truthy(req.releaseDate) ==> rec.releaseDate == today)
      && (req.rating.Some? ==> rec.rating == req.rating.value)
      && (req.rating.None? ==> rec.rating == 0.0)
      && (Truthy(req.genre) ==> rec.genre == req.genre.value)
      && (!Truthy(req.genre) ==> rec.genre == "Other")
      && (Truthy(req.ageRating) ==> rec.ageRating == req.ageRating.value)
      && (!Truthy(req.ageRating) ==> rec.ageRating == "RP")
  {
  }

  /** A request with only a title and a price gets every default at once. */
  lemma MinimalRequest(title: string, price: real, today: string)
    requires title != "" && price > 0.0
    ensures BuildProduct(CreateRequest(Some(title), None, None, Some(price), None, None, None, Missing,
                                       None, None, None, None, None, None), today)
      == Record(ProductRecord(title, title, "", price, "Game", 0, DefaultImage, ["PC"],
                              "Independent", "Independent", today, 0.0, "Other", "RP"))
  {
  }

  /** Whatever the request, a built record carries an array platform with at least one entry unless an empty array was sent. */
  lemma PlatformAlwaysArray(req: CreateRequest, today: string)
    requires BuildProduct(req, today).Record?
    ensures req.platform.List? || |BuildProduct(req, today).record.platform| == 1
  {
  }

  /** The fields of an update body, each possibly undefined: `findByIdAndUpdate` sets exactly the given ones. */
  datatype Patch = Patch(
    title: Option<string>, name: Option<string>, description: Option<string>, price: Option<real>,
    category: Option<string>, stock: Option<int>, image: Option<string>, platform: Option<seq<string>>,
    developer: Option<string>, publisher: Option<string>, releaseDate: Option<string>,
    rating: Option<real>, genre: Option<string>, ageRating: Option<string>)

  const EmptyPatch: Patch := Patch(None, None, None, None, None, None, None, None, None, None, None, None, None, None)

  function ApplyPatch(p: ProductRecord, u: Patch): (r: ProductRecord)
    ensures u.title.Some? ==> r.title == u.title.value
    ensures u.title.None? ==> r.title == p.title
    ensures u.price.Some? ==> r.price == u.price.value
    ensures u.price.None? ==> r.price == p.price
    ensures u.stock.Some? ==> r.stock == u.stock.value
    ensures u.stock.None? ==> r.stock == p.stock
    ensures u.name.Some? ==> r.name == u.name.value
    ensures u.name.None? ==> r.name == p.name
    ensures u.description.Some? ==> r.description == u.description.value
    ensures u.description.None? ==> r.description == p.description
    ensures u.category.Some? ==> r.category == u.category.value
    ensures u.category.None? ==> r.category == p.category
    ensures u.image.Some? ==> r.image == u.image.value
    ensures u.image.None? ==> r.image == p.image
    ensures u.platform.Some? ==> r.platform == u.platform.value
    ensures u.platform.None? ==> r.platform == p.platform
    ensures u.developer.Some? ==> r.developer == u.developer.value
    ensures u.developer.None? ==> r.developer == p.developer
    ensures u.publisher.Some? ==> r.publisher == u.publisher.value
    ensures u.publisher.None? ==> r.publisher == p.publisher
    ensures u.releaseDate.Some? ==> r.releaseDate == u.releaseDate.value
    ensures u.releaseDate.None? ==> r.releaseDate == p.releaseDate
    ensures u.rating.Some? ==> r.rating == u.rating.value
    ensures u.rating.None? ==> r.rating == p.rating
    ensures u.genre.Some? ==> r.genre == u.genre.value
    ensures u.genre.None? ==> r.genre == p.genre
    ensures u.ageRating.Some? ==> r.ageRating == u.ageRating.value
    ensures u.ageRating.None? ==> r.ageRating == p.ageRating
  {
    ProductRecord(
      u.title.GetOr(p.title), u.name.GetOr(p.name), u.description.GetOr(p.description),
      u.price.GetOr(p.price), u.category.GetOr(p.category), u.stock.GetOr(p.stock),
      u.image.GetOr(p.image), u.platform.GetOr(p.platform), u.developer.GetOr(p.developer),
      u.publisher.GetOr(p.publisher), u.releaseDate.GetOr(p.releaseDate), u.rating.GetOr(p.rating),
      u.genre.GetOr(p.genre), u.ageRating.GetOr(p.ageRating))
  }

  /** An empty update body changes nothing, and applying the same update twice is applying it once. */
  lemma PatchLaws(p: ProductRecord, u: Patch)
    ensures ApplyPatch(p, EmptyPatch) == p
    ensures ApplyPatch(ApplyPatch(p, u), u) == ApplyPatch(p, u)
  {
  }

  datatype Response = Ok(product: ProductRecord) | Deleted(message: string) | NotFound(message: string) | BadRequest(message: string)

  class ProductStore {
    var products: map<nat, ProductRecord>
    var nextId: nat

    ghost predicate Valid()
      reads this
    {
      forall id :: id in products ==> id < nextId
    }

    constructor ()
      ensures Valid() && products == map[] && nextId == 0
    {
      products := map[];
      nextId := 0;
    }

    /** getProductById. */
    function GetProductById(id: nat): (r: Response)
      reads this
      ensures id in products ==> r == Ok(products[id])
      ensures id !in products ==> r == NotFound("Product not found")
    {
      if id in products then Ok(products[id]) else NotFound("Product not found")
    }

    /** createProduct: a rejected request stores nothing; a built record goes in under a fresh id. */
    method CreateProduct(req: CreateRequest, today: string) returns (id: nat, r: Response)
      requires Valid()
      modifies this
      ensures Valid()
      ensures BuildProduct(req, today).Rejected? ==>
        r == BadRequest(BuildProduct(req, today).message) && products == old(products) && nextId == old(nextId)
      ensures BuildProduct(req, today).Record? ==>
        && id == old(nextId) && id !in old(products)
        && products == old(products)[id := BuildProduct(req, today).record]
        && r == Ok(BuildProduct(req, today).record)
    {
      id := nextId;
      var built := BuildProduct(req, today);
      if built.Rejected? {
        return id, BadRequest(built.message);
      }
      products := products[id := built.record];
      nextId := nextId + 1;
      r := Ok(built.record);
    }

    /** updateProduct: 404 and no change for an unknown id; otherwise that record takes the body's fields. */
    method UpdateProduct(id: nat, u: Patch) returns (r: Response)
      requires Valid()
      modifies this
      ensures Valid() && nextId == old(nextId)
      ensures id !in old(products) ==> r == NotFound("Product not found") && products == old(products)
      ensures id in old(products) ==>
        products == old(products)[id := ApplyPatch(old(products)[id], u)] && r == Ok(products[id])
    {
      if id !in products {
        return NotFound("Product not found");
      }
      var updated := ApplyPatch(products[id], u);
      products := products[id := updated];
      r := Ok(updated);
    }

    /** deleteProduct: 404 and no change for an unknown id; otherwise exactly that record goes. */
    method DeleteProduct(id: nat) returns (r: Response)
      requires Valid()
      modifies this
      ensures Valid() && nextId == old(nextId)
      ensures id !in old(products) ==> r == NotFound("Product not found") && products == old(products)
      ensures id in old(products) ==>
        products == old(products) - {id} && r == Deleted("Product deleted successfully")
    {
      if id !in products {
        return NotFound("Product not found");
      }
      products := products - {id};
      r := Deleted("Product deleted successfully");
    }
  }
}
