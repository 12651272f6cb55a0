/**
 * The client's record shapes (client/src/types/index.ts). Fields the
 * TypeScript types mark optional, and ids that the data may lack at run time,
 * are `Option`s, so that JavaScript's `undefined === undefined` is Dafny's
 * `None == None`.
 */
module ClientTypes {
  import opened Js

  /** `platform: string | string[]`. */
  datatype Platform = PlatformName(name: string) | PlatformList(names: seq<string>)

  /** `mongoId` is the document store's `_id`; `id` is the client-side id. */
  datatype Product = Product(
    mongoId: Option<string>,
    id: Option<string>,
    title: Option<string>,
    name: Option<string>,
    description: string,
    price: real,
    image: string,
    category: string,
    platform: Platform,
    releaseDate: Option<string>,
    stock: Option<int>,
    countInStock: Option<int>,
    rating: Option<real>,
    developer: Option<string>,
    publisher: Option<string>)

  datatype CartItem = CartItem(id: string, product: Product, quantity: int)

  datatype User = User(id: string, mongoId: Option<string>, email: string, name: string, isAdmin: bool)

  /** The client keeps orders only to list them; their contents play no part in any rule here. */
  datatype Order = Order(mongoId: string, total: real, status: string)

  datatype ShippingAddress = ShippingAddress(
    fullName: string,
    email: string,
    address: string,
    city: string,
    state: string,
    zipCode: string,
    country: string)

  /** `FilterOptions`, with `priceRange: [lo, hi]` as two fields. */
  datatype FilterOptions = FilterOptions(
    category: string,
    platform: string,
    priceLo: real,
    priceHi: real,
    minRating: real,
    inStock: bool)
}
