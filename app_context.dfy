/**
 * The client's global state (client/src/context/AppContext.tsx): the pure
 * reducer `appReducer`, and the dispatch sequences of `logout`, `loadCart`,
 * `loadOrders` and the remote cart operations, which replace the local cart by
 * whatever the server sends back.
 */
module AppContext {
  import opened Js
  import opened ClientTypes

  datatype AppState = AppState(
    products: seq<Product>,
    cartItems: seq<CartItem>,
    currentUser: Option<User>,
    orders: seq<Order>,
    isLoading: bool,
    error: Option<string>)

  const Initial: AppState := AppState([], [], None, [], false, None)

  /** `AppAction`; `Unrecognized` stands for any other `type` tag, which reaches `default`. */
  datatype Action =
    | SetProducts(newProducts: seq<Product>)
    | SetCartItems(newItems: seq<CartItem>)
    | AddToCart(product: Product)
    | RemoveFromCart(itemId: string)
    | UpdateCartQuantity(targetId: string, quantity: int)
    | ClearCart
    | SetUser(user: Option<User>)
    | SetOrders(newOrders: seq<Order>)
    | SetLoading(loading: bool)
    | SetError(message: Option<string>)
    | Unrecognized(tag: string)

  /** `item.product._id === p._id || item.product.id === p.id`: two absent ids are equal. */
  predicate SameProduct(a: Product, b: Product) {
    a.mongoId == b.mongoId || a.id == b.id
  }

  predicate InCart(items: seq<CartItem>, p: Product) {
    exists i :: 0 <= i < |items| && SameProduct(items[i].product, p)
  }

  /** The id a new cart line gets: `_id || id || ''`. */
  function NewItemId(p: Product): string {
    OrElse(Or(p.mongoId, p.id), "")
  }

  function Incremented(items: seq<CartItem>, p: Product): seq<CartItem> {
    seq(|items|, i requires 0 <= i < |items| =>
      if SameProduct(items[i].product, p) then items[i].(quantity := items[i].quantity + 1) else items[i])
  }

  function Max0(q: int): int {
    if q < 0 then 0 else q
  }

  function WithQuantity(items: seq<CartItem>, id: string, q: int): seq<CartItem> {
    seq(|items|, i requires 0 <= i < |items| =>
      if items[i].id == id then items[i].(quantity := Max0(q)) else items[i])
  }

  /** `items.filter(item => item.id !== id)`. */
  function WithoutId(items: seq<CartItem>, id: string): seq<CartItem> {
    if items == [] then []
    else if items[0].id == id then WithoutId(items[1..], id)
    else [items[0]] + WithoutId(items[1..], id)
  }

  /** `items.filter(item => item.quantity > 0)`. */
  function Positive(items: seq<CartItem>): seq<CartItem> {
    if items == [] then []
    else if items[0].quantity > 0 then [items[0]] + Positive(items[1..])
    else Positive(items[1..])
  }

  /** `appReducer`. */
  function Reduce(s: AppState, a: Action): AppState {
    match a
    case SetProducts(ps) => s.(products := ps)
    case AddToCart(p) =>
      if InCart(s.cartItems, p) then s.(cartItems := Incremented(s.cartItems, p))
      else s.(cartItems := s.cartItems + [CartItem(NewItemId(p), p, 1)])
    case RemoveFromCart(id) => s.(cartItems := WithoutId(s.cartItems, id))
    case UpdateCartQuantity(id, q) => s.(cartItems := Positive(WithQuantity(s.cartItems, id, q)))
    case ClearCart => s.(cartItems := [])
    case SetUser(u) => s.(currentUser := u)
    case SetOrders(os) => s.(orders := os)
    case SetLoading(b) => s.(isLoading := b)
    case SetError(m) => s.(error := m)
    case SetCartItems(items) => s.(cartItems := items)
    case Unrecognized(_) => s
  }

  /** ADD_TO_CART of a product already in the cart: every matching line goes up by one, nothing else moves. */
  lemma AddToCartPresent(s: AppState, p: Product)
    requires InCart(s.cartItems, p)
    ensures var r := Reduce(s, AddToCart(p));
      && r == s.(cartItems := r.cartItems)
      && |r.cartItems| == |s.cartItems|
      && forall i :: 0 <= i < |s.cartItems| ==>
           r.cartItems[i] == if SameProduct(s.cartItems[i].product, p)
                             then s.cartItems[i].(quantity := s.cartItems[i].quantity + 1)
                             else s.cartItems[i]
  {
  }

  /** Two products without `_id` count as the same product, whatever their other fields. */
  lemma AbsentIdsMatch(s: AppState, p: Product, i: nat)
    requires i < |s.cartItems| && s.cartItems[i].product.mongoId.None? && p.mongoId.None?
    ensures Reduce(s, AddToCart(p)).cartItems[i].quantity == s.cartItems[i].quantity + 1
    ensures |Reduce(s, AddToCart(p)).cartItems| == |s.cartItems|
  {
    assert SameProduct(s.cartItems[i].product, p);
  }

  /** ADD_TO_CART of a new product appends `{id: _id || id || '', product, quantity: 1}`. */
  lemma AddToCartNew(s: AppState, p: Product)
    requires !InCart(s.cartItems, p)
    ensures Reduce(s, AddToCart(p)) == s.(cartItems := s.cartItems + [CartItem(NewItemId(p), p, 1)])
  {
  }

  lemma {:induction false} WithoutIdSpec(items: seq<CartItem>, id: string)
    ensures forall x :: x in WithoutId(items, id) <==> x in items && x.id != id
  {
    if items != [] {
      WithoutIdSpec(items[1..], id);
      assert items == [items[0]] + items[1..];
    }
  }

  /** Filtering by id keeps the surviving lines in their order: it distributes over concatenation. */
  lemma {:induction false} WithoutIdAppend(a: seq<CartItem>, b: seq<CartItem>, id: string)
    ensures WithoutId(a + b, id) == WithoutId(a, id) + WithoutId(b, id)
  {
    if a == [] {
      assert a + b == b;
    } else {
      assert (a + b)[1..] == a[1..] + b;
      WithoutIdAppend(a[1..], b, id);
    }
  }

  /** REMOVE_FROM_CART removes exactly the lines whose `id` equals the payload. */
  lemma RemoveFromCartSpec(s: AppState, id: string)
    ensures var r := Reduce(s, RemoveFromCart(id));
      && r == s.(cartItems := r.cartItems)
      && (forall x :: x in r.cartItems <==> x in s.cartItems && x.id != id)
      && |r.cartItems| <= |s.cartItems|
  {
    WithoutIdSpec(s.cartItems, id);
    WithoutIdShorter(s.cartItems, id);
  }

  lemma {:induction false} WithoutIdShorter(items: seq<CartItem>, id: string)
    ensures |WithoutId(items, id)| <= |items|
  {
    if items != [] {
      WithoutIdShorter(items[1..], id);
    }
  }

  lemma {:induction false} PositiveSpec(items: seq<CartItem>)
    ensures forall x :: x in Positive(items) <==> x in items && x.quantity > 0
  {
    if items != [] {
      PositiveSpec(items[1..]);
      assert items == [items[0]] + items[1..];
    }
  }

  /** The number of cart lines with the given `id`. */
  function CountId(items: seq<CartItem>, id: string): nat {
    if items == [] then 0
    else (if items[0].id == id then 1 else 0) + CountId(items[1..], id)
  }

  lemma WithQuantityTail(items: seq<CartItem>, id: string, q: int)
    requires items != []
    ensures WithQuantity(items, id, q)[1..] == WithQuantity(items[1..], id, q)
  {
  }

  /** Every other line keeps its multiplicity when positive and vanishes otherwise. */
  lemma {:induction false} UpdatedOthers(items: seq<CartItem>, id: string, q: int, x: CartItem)
    requires x.id != id
    ensures multiset(Positive(WithQuantity(items, id, q)))[x] ==
            if x.quantity > 0 then multiset(items)[x] else 0
  {
    if items != [] {
      var w := WithQuantity(items, id, q);
      WithQuantityTail(items, id, q);
      UpdatedOthers(items[1..], id, q, x);
      assert items == [items[0]] + items[1..];
      assert multiset(items) == multiset{items[0]} + multiset(items[1..]);
      var rest := Positive(w[1..]);
      if w[0].quantity > 0 {
        assert Positive(w) == [w[0]] + rest;
        assert multiset(Positive(w)) == multiset{w[0]} + multiset(rest);
      } else {
        assert Positive(w) == rest;
      }
    }
  }

  /** The lines with the target id all survive when q > 0 and all go when q <= 0. */
  lemma {:induction false} UpdatedTarget(items: seq<CartItem>, id: string, q: int)
    ensures CountId(Positive(WithQuantity(items, id, q)), id) == if q > 0 then CountId(items, id) else 0
  {
    if items != [] {
      var w := WithQuantity(items, id, q);
      WithQuantityTail(items, id, q);
      UpdatedTarget(items[1..], id, q);
      var rest := Positive(w[1..]);
      if w[0].quantity > 0 {
        assert Positive(w) == [w[0]] + rest;
        assert ([w[0]] + rest)[1..] == rest;
      } else {
        assert Positive(w) == rest;
      }
    }
  }

  /** The lines that survive the update, read from the input side. */
  lemma UpdatedKept(items: seq<CartItem>, id: string, q: int)
    ensures var r := Positive(WithQuantity(items, id, q));
      && (forall x :: x in items && x.id != id && x.quantity > 0 ==> x in r)
      && (forall x :: x in items && x.id == id && q > 0 ==> x.(quantity := q) in r)
  {
    var w := WithQuantity(items, id, q);
    PositiveSpec(w);
    forall x | x in items && x.id != id && x.quantity > 0 ensures x in Positive(w) {
      var i :| 0 <= i < |items| && items[i] == x;
      assert w[i] == x;
    }
    forall x | x in items && x.id == id && q > 0 ensures x.(quantity := q) in Positive(w) {
      var i :| 0 <= i < |items| && items[i] == x;
      assert w[i] == x.(quantity := q);
    }
  }

  /** The lines of the result, traced back to the input: nothing is added. */
  lemma UpdatedOnlyFrom(items: seq<CartItem>, id: string, q: int)
    ensures var r := Positive(WithQuantity(items, id, q));
      && (forall x :: x in r ==> x.quantity > 0)
      && (forall x :: x in r && x.id == id ==> q > 0 && x.quantity == q)
      && (forall x :: x in r && x.id != id ==> x in items)
      && (forall x :: x in r && x.id == id ==>
            exists y :: y in items && y.id == id && x == y.(quantity := q))
  {
    var w := WithQuantity(items, id, q);
    PositiveSpec(w);
    forall x | x in Positive(w) && x.id != id ensures x in items {
      var i :| 0 <= i < |w| && w[i] == x;
      assert items[i] == x;
    }
    forall x | x in Positive(w) && x.id == id
      ensures exists y :: y in items && y.id == id && x == y.(quantity := q)
    {
      var i :| 0 <= i < |w| && w[i] == x;
      assert items[i] in items && x == items[i].(quantity := q);
    }
  }

  /**
   * UPDATE_CART_QUANTITY clamps the target to max(0, q) and then drops every line
   * with quantity <= 0: no such line remains, the target lines survive only when
   * q > 0 (and then are the old lines carrying q), every other line is kept
   * exactly when it was positive, with its multiplicity, and nothing else is added.
   */
  lemma UpdateQuantitySpec(s: AppState, id: string, q: int)
    ensures var r := Reduce(s, UpdateCartQuantity(id, q));
      && r == s.(cartItems := r.cartItems)
      && (forall x :: x in r.cartItems ==> x.quantity > 0)
      && (forall x :: x in r.cartItems && x.id == id ==> q > 0 && x.quantity == q)
      && (forall x :: x in s.cartItems && x.id != id && x.quantity > 0 ==> x in r.cartItems)
      && (forall x :: x in s.cartItems && x.id == id && q > 0 ==> x.(quantity := q) in r.cartItems)
      && (forall x :: x in r.cartItems && x.id != id ==> x in s.cartItems)
      && (forall x :: x in r.cartItems && x.id == id ==>
            exists y :: y in s.cartItems && y.id == id && x == y.(quantity := q))
      && (forall x: CartItem :: x.id != id ==>
            multiset(r.cartItems)[x] == if x.quantity > 0 then multiset(s.cartItems)[x] else 0)
      && CountId(r.cartItems, id) == (if q > 0 then CountId(s.cartItems, id) else 0)
  {
    var w := WithQuantity(s.cartItems, id, q);
    UpdatedKept(s.cartItems, id, q);
    UpdatedOnlyFrom(s.cartItems, id, q);
    UpdatedTarget(s.cartItems, id, q);
    forall x: CartItem | x.id != id
      ensures multiset(Positive(w))[x] == if x.quantity > 0 then multiset(s.cartItems)[x] else 0
    {
      UpdatedOthers(s.cartItems, id, q, x);
    }
  }

  /** CLEAR_CART empties the cart and nothing else. */
  lemma ClearCartSpec(s: AppState)
    ensures Reduce(s, ClearCart) == s.(cartItems := [])
  {
  }

  /** Each SET_* action replaces exactly its one field; an unknown action changes nothing. */
  lemma SetActionsReplaceOneField(s: AppState, a: Action)
    ensures a.SetProducts? ==> Reduce(s, a) == s.(products := a.newProducts)
    ensures a.SetCartItems? ==> Reduce(s, a) == s.(cartItems := a.newItems)
    ensures a.SetUser? ==> Reduce(s, a) == s.(currentUser := a.user)
    ensures a.SetOrders? ==> Reduce(s, a) == s.(orders := a.newOrders)
    ensures a.SetLoading? ==> Reduce(s, a) == s.(isLoading := a.loading)
    ensures a.SetError? ==> Reduce(s, a) == s.(error := a.message)
    ensures a.Unrecognized? ==> Reduce(s, a) == s
  {
  }

  /** The cart actions change `cartItems` and nothing else. */
  lemma CartActionsKeepOtherFields(s: AppState, a: Action)
    requires a.AddToCart? || a.RemoveFromCart? || a.UpdateCartQuantity? || a.ClearCart? || a.SetCartItems?
    ensures Reduce(s, a) == s.(cartItems := Reduce(s, a).cartItems)
  {
  }

  /** The outcome of one awaited API call: a response body, or a thrown error with an optional message. */
  datatype Reply<T> = Replied(data: T) | Threw(message: Option<string>)

  /** The three remote cart operations of the context; they differ only in their fallback error text. */
  datatype CartOp = AddOp | UpdateOp | RemoveOp

  function FailText(op: CartOp): string {
    match op
    case AddOp => "Failed to add item to cart"
    case UpdateOp => "Failed to update cart"
    case RemoveOp => "Failed to remove item from cart"
  }

  /** The state `loadCart` leaves behind, given the reply of `GET /cart`. */
  function AfterLoadCart(s: AppState, reply: Reply<Option<seq<CartItem>>>): AppState {
    match reply
    case Replied(items) => Reduce(s, SetCartItems(items.GetOr([])))
    case Threw(m) => Reduce(s, SetError(Some(OrElse(m, "Failed to load cart"))))
  }

  function AfterLoadOrders(s: AppState, reply: Reply<Option<seq<Order>>>): AppState {
    match reply
    case Replied(os) => Reduce(s, SetOrders(os.GetOr([])))
    case Threw(_) => Reduce(s, SetError(Some("Failed to load orders")))
  }

  /** The context's store: `useReducer(appReducer, initialState)` and its dispatch sequences. */
  class AppStore {
    var state: AppState

    constructor ()
      ensures state == Initial
    {
      state := Initial;
    }

    method Dispatch(a: Action)
      modifies this
      ensures state == Reduce(old(state), a)
    {
      state := Reduce(state, a);
    }

    /** logout: no user, no cart, no orders; products, loading flag and error stay. */
    method Logout()
      modifies this
      ensures state == old(state).(currentUser := None, cartItems := [], orders := [])
    {
      Dispatch(SetUser(None));
      Dispatch(ClearCart);
      Dispatch(SetOrders([]));
    }

    /** loadCart: the local cart becomes the server's item list, or [] when the reply has none. */
    method LoadCart(reply: Reply<Option<seq<CartItem>>>)
      modifies this
      ensures reply.Replied? ==> state == old(state).(cartItems := reply.data.GetOr([]))
      ensures reply.Threw? ==> state == old(state).(error := Some(OrElse(reply.message, "Failed to load cart")))
    {
      match reply
      case Replied(items) =>
        Dispatch(SetCartItems(if items.Some? then items.value else []));
      case Threw(m) =>
        Dispatch(SetError(Some(OrElse(m, "Failed to load cart"))));
    }

    method LoadOrders(reply: Reply<Option<seq<Order>>>)
      modifies this
      ensures reply.Replied? ==> state == old(state).(orders := reply.data.GetOr([]))
      ensures reply.Threw? ==> state == old(state).(error := Some("Failed to load orders"))
    {
      match reply
      case Replied(os) =>
        Dispatch(SetOrders(if os.Some? then os.value else []));
      case Threw(_) =>
        Dispatch(SetError(Some("Failed to load orders")));
    }

    /**
     * addToCart / updateCartItem / removeFromCart: set loading, send the change,
     * reload the cart from the server, clear loading. A failed send records the
     * error and is rethrown (`failed`); the local cart is never edited directly.
     */
    method CartMutation(op: CartOp, sent: Reply<()>, reload: Reply<Option<seq<CartItem>>>) returns (failed: bool)
      modifies this
      ensures failed <==> sent.Threw?
      ensures sent.Threw? ==>
        state == old(state).(isLoading := false, error := Some(OrElse(sent.message, FailText(op))))
      ensures sent.Replied? ==> state == AfterLoadCart(old(state), reload).(isLoading := false)
      ensures sent.Replied? && reload.Replied? ==> state.cartItems == reload.data.GetOr([])
    {
      Dispatch(SetLoading(true));
      if sent.Threw? {
        Dispatch(SetError(Some(OrElse(sent.message, FailText(op)))));
        failed := true;
      } else {
        LoadCart(reload);
        failed := false;
      }
      Dispatch(SetLoading(false));
    }

    /** checkout: after the order is placed both cart and orders are reloaded from the server. */
    method Checkout(sent: Reply<()>, cartReload: Reply<Option<seq<CartItem>>>, ordersReload: Reply<Option<seq<Order>>>)
      returns (failed: bool)
      modifies this
      ensures failed <==> sent.Threw?
      ensures sent.Threw? ==>
        state == old(state).(isLoading := false, error := Some(OrElse(sent.message, "Checkout failed")))
      ensures sent.Replied? ==>
        state == AfterLoadOrders(AfterLoadCart(old(state), cartReload), ordersReload).(isLoading := false)
    {
      Dispatch(SetLoading(true));
      if sent.Threw? {
        Dispatch(SetError(Some(OrElse(sent.message, "Checkout failed"))));
        failed := true;
      } else {
        LoadCart(cartReload);
        LoadOrders(ordersReload);
        failed := false;
      }
      Dispatch(SetLoading(false));
    }
  }
}
