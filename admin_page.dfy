/**
 * The admin dashboard (client/src/pages/AdminPage.tsx): the statistics
 * cards, the product form's save guard and the request it sends, the
 * product-list edits made after the server answers, the per-category
 * counts, the inventory alerts and the delete-user control.
 */
module AdminPage {
  import opened Js
  import opened ClientTypes
  import AppContext
  import ProductController

  /** `s.filter(keep)`. */
  function Where<T>(s: seq<T>, keep: T -> bool): (r: seq<T>)
    ensures |r| <= |s|
  {
    if s == [] then [] else Where(s[..|s| - 1], keep) + (if keep(s[|s| - 1]) then [s[|s| - 1]] else [])
  }

  /** The filtered list holds the kept elements as often as the input does, and nothing else. */
  lemma {:induction false} WhereSpec<T>(s: seq<T>, keep: T -> bool)
    ensures forall x :: x in Where(s, keep) <==> x in s && keep(x)
    ensures forall x :: keep(x) ==> multiset(Where(s, keep))[x] == multiset(s)[x]
  {
    if s != [] {
      WhereSpec(s[..|s| - 1], keep);
      assert s == s[..|s| - 1] + [s[|s| - 1]];
    }
  }

  /** A test no element passes keeps nothing. */
  lemma {:induction false} WhereNone<T>(s: seq<T>, keep: T -> bool)
    requires forall i :: 0 <= i < |s| ==> !keep(s[i])
    ensures Where(s, keep) == []
  {
    if s != [] {
      WhereNone(s[..|s| - 1], keep);
    }
  }

  /** A weaker test never keeps fewer elements. */
  lemma {:induction false} WhereMonotone<T>(s: seq<T>, a: T -> bool, b: T -> bool)
    requires forall x :: a(x) ==> b(x)
    ensures |Where(s, a)| <= |Where(s, b)|
  {
    if s != [] {
      WhereMonotone(s[..|s| - 1], a, b);
    }
  }

  /** `typeof p.stock === 'number' && p.stock <= 5`. */
  predicate IsLowStock(p: Product) {
    p.stock.Some? && p.stock.value <= 5
  }

  /** `p.stock === 0`. */
  predicate IsOutOfStock(p: Product) {
    p.stock == Some(0)
  }

  /** `typeof p.stock === 'number' && p.stock <= 10`. */
  predicate IsAlert(p: Product) {
    p.stock.Some? && p.stock.value <= 10
  }

  datatype Stats = Stats(
    totalProducts: nat, totalOrders: nat, totalUsers: nat, totalRevenue: real,
    lowStockItems: nat, outOfStockItems: nat)

  /** The statistics cards; `analytics?.totalRevenue || 0`. */
  function StatsOf(products: seq<Product>, orders: seq<Order>, users: seq<User>, revenue: Option<real>): (r: Stats)
    ensures r.totalProducts == |products| && r.totalOrders == |orders| && r.totalUsers == |users|
    ensures r.totalRevenue == (if revenue.Some? then revenue.value else 0.0)
    ensures r.outOfStockItems <= r.lowStockItems <= r.totalProducts
  {
    WhereMonotone(products, IsOutOfStock, IsLowStock);
    Stats(|products|, |orders|, |users|, revenue.GetOr(0.0),
          |Where(products, IsLowStock)|, |Where(products, IsOutOfStock)|)
  }

  /**
   * An out-of-stock product is also counted as low on stock; a product whose
   * stock is not a number is counted in neither.
   */
  lemma StockCounts(p: Product)
    ensures StatsOf([p], [], [], None).outOfStockItems == (if p.stock == Some(0) then 1 else 0)
    ensures StatsOf([p], [], [], None).lowStockItems == (if p.stock.Some? && p.stock.value <= 5 then 1 else 0)
    ensures p.stock == Some(0) ==> StatsOf([p], [], [], None).lowStockItems == 1
  {
    assert [p][..0] == [];
  }

  /** The inventory alerts: products with a numeric stock of at most 10, in catalogue order. */
  function Alerts(products: seq<Product>): (r: seq<Product>)
    ensures forall p :: p in r <==> p in products && p.stock.Some? && p.stock.value <= 10
    ensures |Where(products, IsLowStock)| <= |r|
  {
    WhereSpec(products, IsAlert);
    WhereMonotone(products, IsLowStock, IsAlert);
    Where(products, IsAlert)
  }

  /** "All products are well stocked!" shows exactly when every numeric stock is above 10. */
  lemma WellStocked(products: seq<Product>)
    ensures Alerts(products) == [] <==> forall p :: p in products && p.stock.Some? ==> p.stock.value > 10
  {
    if Alerts(products) != [] {
      assert Alerts(products)[0] in Alerts(products);
    }
  }

  /**
   * The form state `newProduct: Partial<Product>`; `None` is a key left
   * undefined. The last four keys are set only when a product is opened for
   * editing, since `setNewProduct(product)` copies the whole product.
   */
  datatype Draft = Draft(
    title: Option<string>,
    description: Option<string>,
    price: Option<real>,
    image: Option<string>,
    category: Option<string>,
    platform: ProductController.PlatformInput,
    releaseDate: Option<string>,
    stock: Option<int>,
    rating: Option<real>,
    developer: Option<string>,
    publisher: Option<string>,
    mongoId: Option<string>,
    id: Option<string>,
    name: Option<string>,
    countInStock: Option<int>)

  /** The blank form the page starts with and returns to after a save. */
  const EmptyDraft: Draft := Draft(Some(""), Some(""), Some(0.0), Some(""), Some(""), ProductController.List([]),
                                   Some(""), Some(0), Some(0.0), Some(""), Some(""), None, None, None, None)

  /** `setNewProduct(product)` when editing: the form becomes the whole product. */
  function DraftOf(p: Product): Draft {
    Draft(p.title, Some(p.description), Some(p.price), Some(p.image), Some(p.category),
          match p.platform
          case PlatformName(n) => ProductController.Text(n)
          case PlatformList(ns) => ProductController.List(ns),
          p.releaseDate, p.stock, p.rating, p.developer, p.publisher,
          p.mongoId, p.id, p.name, p.countInStock)
  }

  /**
   * The form opened on a product loses nothing: two products give the same
   * form only when they are equal, so the update body carries every field of
   * the product being edited, its stored `name` included.
   */
  lemma DraftOfInjective(p: Product, q: Product)
    ensures DraftOf(p) == DraftOf(q) ==> p == q
    ensures DraftOf(p).name == p.name && DraftOf(p).mongoId == p.mongoId && DraftOf(p).id == p.id
  {
  }

  /** `newProduct.title && newProduct.price`: a non-empty title and a non-zero price. */
  predicate CanSave(d: Draft) {
    Truthy(d.title) && d.price.Some? && d.price.value != 0.0
  }

  /** A product opened for editing can be saved again exactly when it has a title and a non-zero price. */
  lemma EditedProductSavable(p: Product)
    ensures CanSave(DraftOf(p)) <==> Truthy(p.title) && p.price != 0.0
    ensures DraftOf(p).title == p.title && DraftOf(p).price == Some(p.price)
  {
  }

  /** The blank form cannot be saved. */
  lemma EmptyDraftRefused()
    ensures !CanSave(EmptyDraft)
  {
  }

  /** `productData` in `handleAddProduct`; `today` is the date part of the current time. */
  function ProductData(d: Draft, today: string): (r: ProductController.CreateRequest)
    requires CanSave(d)
    ensures r.title == d.title && r.price == d.price && r.name.None?
    ensures r.platform.List?
  {
    ProductController.CreateRequest(
      d.title,
      None,
      Some(OrElse(d.description, "")),
      d.price,
      Some(OrElse(d.category, "Game")),
      Some(if d.stock.Some? then d.stock.value else 0),
      Some(OrElse(d.image, ProductController.DefaultImage)),
      match d.platform
      case List(ns) => ProductController.List(ns)
      case Text(t) => ProductController.List([if t != "" then t else "PC"])
      case Missing => ProductController.List(["PC"]),
      Some(OrElse(d.developer, "Independent")),
      Some(OrElse(d.publisher, "Independent")),
      Some(OrElse(d.releaseDate, today)),
      Some(ProductController.NumberOr0(d.rating)),
      None,
      None)
  }

  /**
   * The client's guard is weaker than the server's: a saveable form with a
   * positive price is accepted and keeps its title and price, one with a
   * negative price passes the guard and is refused by `createProduct`.
   */
  lemma ServerAgreesOnSavedForms(d: Draft, today: string, serverToday: string)
    requires CanSave(d)
    ensures d.price.value > 0.0 ==>
      && ProductController.BuildProduct(ProductData(d, today), serverToday).Record?
      && ProductController.BuildProduct(ProductData(d, today), serverToday).record.title == d.title.value
      && ProductController.BuildProduct(ProductData(d, today), serverToday).record.price == d.price.value
      && (today != "" ==> ProductController.BuildProduct(ProductData(d, today), serverToday).record.releaseDate == OrElse(d.releaseDate, today))
    ensures d.price.value < 0.0 ==>
      ProductController.BuildProduct(ProductData(d, today), serverToday) == ProductController.Rejected("Valid price is required")
  {
  }

  /** After an update: `products.map(p => p.id === editingProduct.id ? updatedProduct : p)`. */
  function Updated(products: seq<Product>, id: Option<string>, updated: Product): (r: seq<Product>)
    ensures |r| == |products|
    ensures forall i :: 0 <= i < |r| ==> r[i] == if products[i].id == id then updated else products[i]
  {
    seq(|products|, i requires 0 <= i < |products| => if products[i].id == id then updated else products[i])
  }

  /** After a delete: `products.filter(p => p.id !== productId)`. */
  function Deleted(products: seq<Product>, id: Option<string>): (r: seq<Product>)
    ensures forall p :: p in r <==> p in products && p.id != id
    ensures forall p: Product :: p.id != id ==> multiset(r)[p] == multiset(products)[p]
  {
    WhereSpec(products, OtherId(id));
    Where(products, OtherId(id))
  }

  /** The delete's test `p => p.id !== productId`. */
  function OtherId(id: Option<string>): Product -> bool {
    (p: Product) => p.id != id
  }

  /**
   * Both edits match on the client-side `id`. When that is undefined on the
   * edited product (`undefined === undefined`), an update replaces every
   * product without an id, and a delete removes all of them.
   */
  lemma MissingIdsMatchEachOther(products: seq<Product>, updated: Product)
    requires forall p :: p in products ==> p.id.None?
    ensures Updated(products, None, updated) == seq(|products|, i => updated)
    ensures Deleted(products, None) == []
  {
    WhereNone(products, OtherId(None));
  }

  /** `Array.from(new Set(products.map(p => p.category)))`: each category once, by first appearance. */
  function Categories(products: seq<Product>): (r: seq<string>)
    ensures forall i, j :: 0 <= i < j < |r| ==> r[i] != r[j]
    ensures forall c :: c in r <==> exists p :: p in products && p.category == c
  {
    if products == [] then []
    else
      var init, last := products[..|products| - 1], products[|products| - 1];
      var pre := Categories(init);
      assert forall p :: p in products <==> p in init || p == last;
      if last.category in pre then pre else pre + [last.category]
  }

  /** `products.filter(p => p.category === category).length`. */
  function CategoryCount(products: seq<Product>, c: string): nat {
    if products == [] then 0
    else CategoryCount(products[..|products| - 1], c) + (if products[|products| - 1].category == c then 1 else 0)
  }

  function SumCounts(cats: seq<string>, products: seq<Product>): nat {
    if cats == [] then 0 else SumCounts(cats[..|cats| - 1], products) + CategoryCount(products, cats[|cats| - 1])
  }

  lemma {:induction false} CountOutside(products: seq<Product>, c: string)
    requires c !in Categories(products)
    ensures CategoryCount(products, c) == 0
  {
    if products != [] {
      var init := products[..|products| - 1];
      assert forall p :: p in init ==> p in products;
      CountOutside(init, c);
    }
  }

  /** Adding one product adds one to the total over a list of distinct categories holding its category. */
  lemma {:induction false} SumCountsStep(cats: seq<string>, init: seq<Product>, x: Product)
    requires forall i, j :: 0 <= i < j < |cats| ==> cats[i] != cats[j]
    ensures SumCounts(cats, init + [x]) == SumCounts(cats, init) + (if x.category in cats then 1 else 0)
  {
    var s := init + [x];
    assert s[..|s| - 1] == init;
    if cats != [] {
      var front := cats[..|cats| - 1];
      SumCountsStep(front, init, x);
      assert x.category in cats <==> x.category in front || x.category == cats[|cats| - 1];
      if x.category == cats[|cats| - 1] {
        assert x.category !in front by {
          forall k | 0 <= k < |front| ensures front[k] != x.category {
            assert front[k] == cats[k];
          }
        }
      }
    }
  }

  /** The per-category counts of the analytics tab add up to the number of products. */
  lemma {:induction false} CategoryCountsSum(products: seq<Product>)
    ensures SumCounts(Categories(products), products) == |products|
  {
    if products != [] {
      var init, last := products[..|products| - 1], products[|products| - 1];
      assert products == init + [last];
      var pre := Categories(init);
      CategoryCountsSum(init);
      SumCountsStep(pre, init, last);
      if last.category !in pre {
        var cats := pre + [last.category];
        assert cats[..|cats| - 1] == pre;
        SumCountsStep(cats, init, last);
        CountOutside(init, last.category);
        assert SumCounts(cats, init) == SumCounts(pre, init) + CategoryCount(init, last.category);
      }
    }
  }

  /** Every listed category has at least one product. */
  lemma {:induction false} CategoryCountPositive(products: seq<Product>, c: string)
    requires c in Categories(products)
    ensures CategoryCount(products, c) >= 1
  {
    if products != [] {
      var init, last := products[..|products| - 1], products[|products| - 1];
      if last.category != c {
        var p :| p in products && p.category == c;
        assert p in init;
        CategoryCountPositive(init, c);
      }
    }
  }

  /** The delete-user button is rendered only for customers. */
  predicate DeleteUserControl(u: User) {
    !u.isAdmin
  }

  /** `user._id || user.id`. */
  function UserKey(u: User): string {
    OrElse(u.mongoId, u.id)
  }

  /** The dashboard's own state. */
  class AdminPanel {
    var newProduct: Draft
    var editingProduct: Option<Product>
    var showAddProduct: bool
    var users: seq<User>

    constructor (loadedUsers: seq<User>)
      ensures newProduct == EmptyDraft && editingProduct == None && !showAddProduct && users == loadedUsers
    {
      newProduct := EmptyDraft;
      editingProduct := None;
      showAddProduct := false;
      users := loadedUsers;
    }

    /**
     * handleAddProduct. `sent` is the request body, sent only when the form
     * can be saved; `answer` is the server's reply. On success the created
     * product is appended and the form reset; on failure nothing changes.
     */
    method HandleAddProduct(store: AppContext.AppStore, today: string, answer: AppContext.Reply<Product>)
      returns (sent: Option<ProductController.CreateRequest>)
      modifies this, store
      ensures sent.Some? <==> CanSave(old(newProduct))
      ensures sent.Some? ==> sent.value == ProductData(old(newProduct), today)
      ensures CanSave(old(newProduct)) && answer.Replied? ==>
        && store.state == old(store.state).(products := old(store.state.products) + [answer.data])
        && newProduct == EmptyDraft && !showAddProduct
      ensures !CanSave(old(newProduct)) || answer.Threw? ==>
        store.state == old(store.state) && newProduct == old(newProduct) && showAddProduct == old(showAddProduct)
      ensures editingProduct == old(editingProduct) && users == old(users)
    {
      if !CanSave(newProduct) {
        return None;
      }
      sent := Some(ProductData(newProduct, today));
      if answer.Replied? {
        store.Dispatch(AppContext.SetProducts(store.state.products + [answer.data]));
        newProduct := EmptyDraft;
        showAddProduct := false;
      }
    }

    /** handleEditProduct: the form opens filled from the product. */
    method HandleEditProduct(p: Product)
      modifies this
      ensures editingProduct == Some(p) && newProduct == DraftOf(p) && showAddProduct
      ensures users == old(users)
    {
      editingProduct := Some(p);
      newProduct := DraftOf(p);
      showAddProduct := true;
    }

    /**
     * handleUpdateProduct: with a product being edited and a saveable form,
     * send (its id, the form) and, on success, put the answer in place of
     * every product with that id.
     */
    method HandleUpdateProduct(store: AppContext.AppStore, answer: AppContext.Reply<Product>)
      returns (sent: Option<(Option<string>, Draft)>)
      modifies this, store
      ensures sent.Some? <==> old(editingProduct).Some? && CanSave(old(newProduct))
      ensures sent.Some? ==> sent.value == (old(editingProduct).value.id, old(newProduct))
      ensures sent.Some? && answer.Replied? ==>
        && store.state == old(store.state).(products := Updated(old(store.state.products), old(editingProduct).value.id, answer.data))
        && editingProduct == None && newProduct == EmptyDraft && !showAddProduct
      ensures sent.None? || answer.Threw? ==>
        && store.state == old(store.state) && editingProduct == old(editingProduct)
        && newProduct == old(newProduct) && showAddProduct == old(showAddProduct)
      ensures users == old(users)
    {
      if editingProduct.None? || !CanSave(newProduct) {
        return None;
      }
      var id := editingProduct.value.id;
      sent := Some((id, newProduct));
      if answer.Replied? {
        store.Dispatch(AppContext.SetProducts(Updated(store.state.products, id, answer.data)));
        editingProduct := None;
        newProduct := EmptyDraft;
        showAddProduct := false;
      }
    }

    /** handleDeleteProduct: after the confirmation and a successful request, the product's id leaves the list. */
    method HandleDeleteProduct(store: AppContext.AppStore, id: Option<string>, confirmed: bool, answer: AppContext.Reply<()>)
      returns (sent: bool)
      modifies store
      ensures sent <==> confirmed
      ensures confirmed && answer.Replied? ==> store.state == old(store.state).(products := Deleted(old(store.state.products), id))
      ensures !confirmed || answer.Threw? ==> store.state == old(store.state)
    {
      sent := confirmed;
      if confirmed && answer.Replied? {
        store.Dispatch(AppContext.SetProducts(Deleted(store.state.products, id)));
      }
    }

    /** The delete-user button, present only on a customer's row: after the confirmation and a successful request, every user with that key goes. */
    method ClickDeleteUser(u: User, confirmed: bool, answer: AppContext.Reply<()>) returns (sent: Option<string>)
      requires DeleteUserControl(u)
      modifies this
      ensures sent == (if confirmed then Some(UserKey(u)) else None)
      ensures confirmed && answer.Replied? ==>
        users == Where(old(users), (x: User) => UserKey(x) != UserKey(u))
      ensures !confirmed || answer.Threw? ==> users == old(users)
      ensures newProduct == old(newProduct) && editingProduct == old(editingProduct)
      ensures showAddProduct == old(showAddProduct)
    {
      if !confirmed {
        return None;
      }
      sent := Some(UserKey(u));
      if answer.Replied? {
        users := Where(users, (x: User) => UserKey(x) != UserKey(u));
      }
    }
  }

  /** After a user is deleted, no remaining user has that key, and every other user is still listed. */
  lemma UserDeleteRemovesKey(users: seq<User>, key: string)
    ensures var r := Where(users, (x: User) => UserKey(x) != key);
      forall x :: x in r <==> x in users && UserKey(x) != key
  {
    WhereSpec(users, (x: User) => UserKey(x) != key);
  }
}
