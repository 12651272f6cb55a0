/**
 * The server's order controller (server/controllers/orderController.js):
 * create an order from the checkout body, list a user's orders, fetch one
 * order under the owner-or-admin rule, and the status update mounted at
 * `PUT /orders/:id/status` (server/routes/orderRoutes.js), which tries to save
 * any truthy status and succeeds only for one the schema lists. Document ids
 * are drawn from a counter.
 */
module OrderController {
  import opened Js
  import opened ClientTypes
  import OrderService
  import OrderModel

  type OrderId = nat

  /** An order as the controller hands it to the store: the body's fields, the requester, and a status. */
  datatype StoredOrder = StoredOrder(
    user: string,
    items: seq<OrderService.ItemRef>,
    shippingAddress: ShippingAddress,
    paymentMethod: string,
    total: real,
    status: string)

  /** The status a new order gets from the schema default. */
  const InitialStatus: string := "Processing"

  /** `Order.find({ user })`: the orders whose owner is the user. */
  function OrdersOf(orders: map<OrderId, StoredOrder>, user: string): (r: map<OrderId, StoredOrder>)
    ensures forall id :: id in r ==> id in orders && r[id] == orders[id] && orders[id].user == user
    ensures forall id :: id in orders && orders[id].user == user ==> id in r
  {
    map id | id in orders && orders[id].user == user :: orders[id]
  }

  /** A new order shows up in its owner's list, and in no one else's. */
  lemma CreateListsForOwnerOnly(orders: map<OrderId, StoredOrder>, id: OrderId, o: StoredOrder, other: string)
    requires id !in orders
    requires other != o.user
    ensures OrdersOf(orders[id := o], o.user) == OrdersOf(orders, o.user)[id := o]
    ensures OrdersOf(orders[id := o], other) == OrdersOf(orders, other)
  {
  }

  /** A status change moves no order between users' lists. */
  lemma StatusChangeKeepsOwnership(orders: map<OrderId, StoredOrder>, id: OrderId, s: string, u: string)
    requires id in orders
    ensures OrdersOf(orders[id := orders[id].(status := s)], u).Keys == OrdersOf(orders, u).Keys
  {
  }

  /**
   * The body of the error middleware in server/server.js. Whatever an
   * `asyncHandler` route throws ends there, and the middleware answers 500,
   * overriding any status the handler set before throwing.
   */
  const MiddlewareMessage: string := "Something went wrong!"

  /**
   * The answer of `getOrderById`: the order, or the middleware's 500. Both the
   * `Order not found` error thrown after `res.status(404)` and the TypeError of
   * an owner that `populate` cannot resolve end in the middleware.
   */
  datatype Lookup = Found(order: StoredOrder) | ServerError(message: string)

  /**
   * getOrderById: the order when it exists, its owner resolves, and the
   * requester owns it or is an admin; every other case answers 500.
   * `liveUsers` are the accounts `populate` can resolve.
   */
  function GetOrderById(orders: map<OrderId, StoredOrder>, liveUsers: set<string>,
                        requester: string, isAdmin: bool, id: OrderId): (r: Lookup)
    ensures r.Found? <==> id in orders && orders[id].user in liveUsers && (orders[id].user == requester || isAdmin)
    ensures r.Found? ==> r.order == orders[id]
    ensures !r.Found? ==> r == ServerError(MiddlewareMessage)
  {
    if id !in orders then ServerError(MiddlewareMessage)
    else if orders[id].user !in liveUsers then ServerError(MiddlewareMessage)
    else if orders[id].user == requester || isAdmin then Found(orders[id])
    else ServerError(MiddlewareMessage)
  }

  /** An order whose owner no longer resolves cannot be read by anyone, not even an admin. */
  lemma OwnerGoneFails(orders: map<OrderId, StoredOrder>, liveUsers: set<string>,
                       requester: string, isAdmin: bool, id: OrderId)
    requires id in orders && orders[id].user !in liveUsers
    ensures GetOrderById(orders, liveUsers, requester, isAdmin, id) == ServerError(MiddlewareMessage)
  {
  }

  /** Another user's order is indistinguishable from a missing one. */
  lemma ForeignOrderLooksMissing(orders: map<OrderId, StoredOrder>, liveUsers: set<string>,
                                 requester: string, id: OrderId, missing: OrderId)
    requires id in orders && orders[id].user != requester && orders[id].user in liveUsers
    requires missing !in orders
    ensures GetOrderById(orders, liveUsers, requester, false, id) == GetOrderById(orders, liveUsers, requester, false, missing)
  {
  }

  /** An admin sees every order whose owner still exists. */
  lemma AdminSeesAll(orders: map<OrderId, StoredOrder>, liveUsers: set<string>, requester: string, id: OrderId)
    requires id in orders && orders[id].user in liveUsers
    ensures GetOrderById(orders, liveUsers, requester, true, id) == Found(orders[id])
  {
  }

  /** The status `order.status = req.body.status || order.status` leaves. */
  function NewStatus(current: string, requested: Option<string>): (s: string)
    ensures Truthy(requested) ==> s == requested.value
    ensures !Truthy(requested) ==> s == current
  {
    OrElse(requested, current)
  }

  /**
   * Any non-empty token becomes the status the handler tries to save, including
   * ones outside the order schema's list; an empty or absent one keeps the old.
   */
  lemma AnyTokenAccepted(current: string)
    ensures NewStatus(current, Some("completed")) == "completed"
    ensures NewStatus(current, Some("")) == current
    ensures NewStatus(current, None) == current
  {
  }

  /** The answer of `updateOrderStatus`: the saved order, or the middleware's 500. */
  datatype UpdateResult = Updated(order: StoredOrder) | UpdateFailed(message: string)

  class OrderStore {
    var orders: map<OrderId, StoredOrder>
    var nextId: OrderId

    /** Every id handed out so far is below the counter. */
    ghost predicate Valid()
      reads this
    {
      forall id :: id in orders ==> id < nextId
    }

    constructor ()
      ensures Valid() && orders == map[] && nextId == 0
    {
      orders := map[];
      nextId := 0;
    }

    /**
     * createOrder: stores the body's items, address, method and total as sent,
     * under the requester, with no check of the items and no recomputed total.
     * The cart is not touched (it is not part of this store).
     */
    method CreateOrder(user: string, body: OrderService.Sanitized) returns (id: OrderId, created: StoredOrder)
      requires Valid()
      modifies this
      ensures Valid()
      ensures id !in old(orders) && id == old(nextId)
      ensures created == StoredOrder(user, body.items, body.shippingAddress, body.paymentMethod, body.total, InitialStatus)
      ensures orders == old(orders)[id := created]
    {
      id := nextId;
      created := StoredOrder(user, body.items, body.shippingAddress, body.paymentMethod, body.total, InitialStatus);
      orders := orders[id := created];
      nextId := nextId + 1;
    }

    /** getOrders. */
    method GetOrders(user: string) returns (r: map<OrderId, StoredOrder>)
      ensures r == OrdersOf(orders, user)
    {
      r := map id | id in orders && orders[id].user == user :: orders[id];
    }

    /**
     * `order.save()` after a status change. Mongoose validates the document
     * before writing it, and the status path must hold one of the schema's
     * values: a refused save throws and stores nothing.
     */
    method SaveStatus(id: OrderId, status: string) returns (saved: bool)
      requires Valid() && id in orders
      modifies this
      ensures Valid() && nextId == old(nextId)
      ensures saved <==> status in OrderModel.Statuses
      ensures saved ==> orders == old(orders)[id := old(orders)[id].(status := status)]
      ensures !saved ==> orders == old(orders)
    {
      saved := status in OrderModel.Statuses;
      if saved {
        orders := orders[id := orders[id].(status := status)];
      }
    }

    /**
     * updateOrderStatus (order controller): an unknown id throws after
     * `res.status(404)`, and the middleware answers 500; otherwise the new
     * status is saved when the schema lists it, and a refused save also ends
     * in the middleware's 500. Nothing changes when the answer is 500.
     */
    method UpdateOrderStatus(id: OrderId, status: Option<string>) returns (r: UpdateResult)
      requires Valid()
      modifies this
      ensures Valid() && nextId == old(nextId)
      ensures id !in old(orders) ==> r == UpdateFailed(MiddlewareMessage) && orders == old(orders)
      ensures id in old(orders) && NewStatus(old(orders)[id].status, status) in OrderModel.Statuses ==>
        && orders == old(orders)[id := old(orders)[id].(status := NewStatus(old(orders)[id].status, status))]
        && r == Updated(orders[id])
      ensures id in old(orders) && NewStatus(old(orders)[id].status, status) !in OrderModel.Statuses ==>
        r == UpdateFailed(MiddlewareMessage) && orders == old(orders)
    {
      if id !in orders {
        return UpdateFailed(MiddlewareMessage);
      }
      var next := if Truthy(status) then status.value else orders[id].status;
      var saved := SaveStatus(id, next);
      if saved {
        r := Updated(orders[id]);
      } else {
        r := UpdateFailed(MiddlewareMessage);
      }
    }
  }
}
