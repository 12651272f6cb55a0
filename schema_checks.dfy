/**
 * What the controllers hand to the store, held against the schemas'
 * validators. Each lemma names a disagreement between a controller and the
 * schema it writes to.
 */
module SchemaChecks {
  import opened Js
  import ProductController
  import ProductModel
  import OrderController
  import OrderModel
  import AdminController
  import OrderService

  /** The draft `Product.create(productData)` receives: the platform is offered as an array. */
  function ProductDraft(r: ProductController.ProductRecord): ProductModel.Draft {
    ProductModel.Draft(
      Some(r.name), Some(r.description), Some(r.price), Some(r.stock), Some(r.category),
      Some(ProductModel.Many(r.platform)), Some(r.genre), Some(r.publisher), Some(r.developer),
      Some(r.rating), Some(r.ageRating))
  }

  /** No product `createProduct` builds passes the schema: its platform is always an array, the schema's a String. */
  lemma CreatedProductNeverValid(req: ProductController.CreateRequest, today: string)
    requires ProductController.BuildProduct(req, today).Record?
    ensures !ProductModel.Valid(ProductModel.Prepare(ProductDraft(ProductController.BuildProduct(req, today).record)))
  {
  }

  /** The controller's default category "Game" is outside the schema's category list, whose default is "games". */
  lemma DefaultCategoryOutsideEnum()
    ensures "Game" !in ProductModel.Categories
    ensures "games" in ProductModel.Categories
  {
  }

  /** The status a new order starts with is the schema's default and is listed; "completed", which revenue counts, is not. */
  lemma InitialStatusListed()
    ensures OrderController.InitialStatus in OrderModel.Statuses
    ensures "completed" !in OrderModel.Statuses
  {
  }

  /**
   * The draft `Order.create` receives from the order controller: its keys
   * `items` and `total` and the address's `address` / `zipCode` are not schema
   * paths, so `orderItems`, `totalAmount`, `addressLine1` and `postalCode`
   * stay undefined.
   */
  function OrderDraft(o: OrderController.StoredOrder): OrderModel.OrderDraft {
    OrderModel.OrderDraft(
      Some(o.user), [],
      OrderModel.AddressDraft(None, None, Some(o.shippingAddress.city), Some(o.shippingAddress.state),
                              None, Some(o.shippingAddress.country)),
      Some(o.paymentMethod), None, None, None, Some(o.status))
  }

  /** No order the order controller creates passes the schema: the total is never where the schema requires it. */
  lemma CreatedOrderNeverValid(o: OrderController.StoredOrder)
    ensures !OrderModel.Valid(OrderModel.Prepare(OrderDraft(o)))
  {
  }

  /** The checkout page's payment methods are not among the schema's. */
  lemma ClientPaymentMethodsOutsideEnum()
    ensures "card" !in OrderModel.PaymentMethods && "paypal" !in OrderModel.PaymentMethods
  {
  }
}
