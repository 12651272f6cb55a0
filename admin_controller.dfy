/**
 * The admin controller (server/controllers/adminController.js): the validated
 * order-status update, user deletion with its self-deletion guard, and the
 * pure parts of the analytics: revenue over completed orders, the top-five
 * products by units sold, and month labels.
 */
module AdminController {
  import opened Js
  import Sorting
  import OrderController
  import OrderModel

  datatype Response<T> =
    | Ok(value: T)
    | BadRequest(message: string)
    | NotFound(message: string)
    | ServerError(message: string)

  /** The status tokens the admin endpoint accepts. */
  const ValidStatuses: seq<string> := ["pending", "processing", "shipped", "delivered", "cancelled"]

  /** `validStatuses.includes(status)`; a missing status is never included. */
  predicate IsValidStatus(status: Option<string>) {
    status.Some? && status.value in ValidStatuses
  }

  /**
   * updateOrderStatus (admin): an unlisted or missing status is refused with 400
   * before the lookup; an unknown order gives 404; otherwise the save is
   * attempted, and since no accepted token is one of the schema's statuses it is
   * always refused, so the catch answers 500 and nothing is stored.
   */
  method UpdateOrderStatus(store: OrderController.OrderStore, orderId: OrderController.OrderId, status: Option<string>)
    returns (r: Response<OrderController.StoredOrder>)
    requires store.Valid()
    modifies store
    ensures store.Valid() && store.nextId == old(store.nextId)
    ensures !IsValidStatus(status) ==> r == BadRequest("Invalid status") && store.orders == old(store.orders)
    ensures IsValidStatus(status) && orderId !in old(store.orders) ==>
      r == NotFound("Order not found") && store.orders == old(store.orders)
    ensures IsValidStatus(status) && orderId in old(store.orders) ==>
      r == ServerError("Error updating order status") && store.orders == old(store.orders)
  {
    if !(status.Some? && status.value in ValidStatuses) {
      return BadRequest("Invalid status");
    }
    if orderId !in store.orders {
      return NotFound("Order not found");
    }
    var order := store.orders[orderId].(status := status.value);
    AdminStatusesOutsideEnum(status.value);
    var saved := store.SaveStatus(orderId, status.value);
    if !saved {
      return ServerError("Error updating order status");
    }
    r := Ok(order);
  }

  /** None of the admin endpoint's lowercase status tokens is one of the order schema's capitalised ones. */
  lemma AdminStatusesOutsideEnum(s: string)
    requires IsValidStatus(Some(s))
    ensures s !in OrderModel.Statuses
  {
  }

  /** The admin path's accepted statuses are exactly the five listed ones, and "completed" is not among them. */
  lemma StatusWhitelist(s: string)
    ensures IsValidStatus(Some(s)) <==>
      s == "pending" || s == "processing" || s == "shipped" || s == "delivered" || s == "cancelled"
    ensures !IsValidStatus(Some("completed")) && !IsValidStatus(Some("Processing")) && !IsValidStatus(None)
  {
  }

  datatype UserRecord = UserRecord(name: string, email: string, isAdmin: bool)

  class UserStore {
    var users: map<string, UserRecord>

    constructor (initial: map<string, UserRecord>)
      ensures users == initial
    {
      users := initial;
    }

    /** deleteUser: an admin cannot delete their own account (checked first); an unknown id gives 404. */
    method DeleteUser(requesterId: string, userId: string) returns (r: Response<string>)
      modifies this
      ensures userId == requesterId ==> r == BadRequest("Cannot delete your own account") && users == old(users)
      ensures userId != requesterId && userId !in old(users) ==> r == NotFound("User not found") && users == old(users)
      ensures userId != requesterId && userId in old(users) ==>
        users == old(users) - {userId} && r == Ok("User deleted successfully")
    {
      if userId == requesterId {
        return BadRequest("Cannot delete your own account");
      }
      if userId !in users {
        return NotFound("User not found");
      }
      users := users - {userId};
      r := Ok("User deleted successfully");
    }
  }

  /** Deleting a user removes that key and keeps every other account as it was. */
  lemma DeleteKeepsOthers(users: map<string, UserRecord>, userId: string)
    ensures (users - {userId}).Keys == users.Keys - {userId}
    ensures forall u :: u in users && u != userId ==> u in users - {userId} && (users - {userId})[u] == users[u]
  {
  }

  /** totalRevenue: the sum of totals over the orders whose status is "completed". */
  function Revenue(orders: seq<OrderController.StoredOrder>): real {
    if orders == [] then 0.0
    else Revenue(orders[..|orders| - 1])
         + (if orders[|orders| - 1].status == "completed" then orders[|orders| - 1].total else 0.0)
  }

  /** Only "completed" orders earn revenue, so with none of them the revenue is 0 (the admin path cannot set that status). */
  lemma {:induction false} RevenueWithoutCompleted(orders: seq<OrderController.StoredOrder>)
    requires forall i :: 0 <= i < |orders| ==> orders[i].status != "completed"
    ensures Revenue(orders) == 0.0
  {
    if orders != [] {
      RevenueWithoutCompleted(orders[..|orders| - 1]);
    }
  }

  /** Revenue adds up over a split of the order list. */
  lemma {:induction false} RevenueAppend(a: seq<OrderController.StoredOrder>, b: seq<OrderController.StoredOrder>)
    ensures Revenue(a + b) == Revenue(a) + Revenue(b)
  {
    if b == [] {
      assert a + b == a;
    } else {
      assert (a + b)[..|a + b| - 1] == a + b[..|b| - 1];
      assert (a + b)[|a + b| - 1] == b[|b| - 1];
      RevenueAppend(a, b[..|b| - 1]);
    }
  }

  /** One unwound order line: `$items` with its product, quantity and price. */
  datatype SoldLine = SoldLine(product: string, quantity: int, price: real)

  /** One `$group` result. */
  datatype Group = Group(product: string, totalSold: int, revenue: real)

  /** `$unwind: '$items'` over every order's item list. */
  function Unwind(orders: seq<seq<SoldLine>>): seq<SoldLine> {
    if orders == [] then [] else orders[0] + Unwind(orders[1..])
  }

  function SoldOf(lines: seq<SoldLine>, p: string): int {
    if lines == [] then 0
    else (if lines[0].product == p then lines[0].quantity else 0) + SoldOf(lines[1..], p)
  }

  function RevenueOf(lines: seq<SoldLine>, p: string): real {
    if lines == [] then 0.0
    else (if lines[0].product == p then (lines[0].quantity as real) * lines[0].price else 0.0) + RevenueOf(lines[1..], p)
  }

  /** The distinct products of the lines, each where it first appears. */
  function ProductsIn(lines: seq<SoldLine>): (r: seq<string>)
    ensures forall p :: p in r <==> exists i :: 0 <= i < |lines| && lines[i].product == p
    ensures forall i, j :: 0 <= i < j < |r| ==> r[i] != r[j]
    decreases |lines|
  {
    if lines == [] then []
    else
      var rest := ProductsIn(lines[..|lines| - 1]);
      if lines[|lines| - 1].product in rest then rest else rest + [lines[|lines| - 1].product]
  }

  /** `$group` by product: one group per distinct product with its units sold and revenue. */
  function GroupLines(lines: seq<SoldLine>): (r: seq<Group>)
    ensures |r| == |ProductsIn(lines)|
    ensures forall i :: 0 <= i < |r| ==>
      r[i] == Group(ProductsIn(lines)[i], SoldOf(lines, ProductsIn(lines)[i]), RevenueOf(lines, ProductsIn(lines)[i]))
  {
    var ps := ProductsIn(lines);
    seq(|ps|, i requires 0 <= i < |ps| => Group(ps[i], SoldOf(lines, ps[i]), RevenueOf(lines, ps[i])))
  }

  function TotalSoldKey(g: Group): real {
    g.totalSold as real
  }

  function Take<T>(s: seq<T>, n: nat): (r: seq<T>)
    ensures |r| == if |s| < n then |s| else n
    ensures forall i :: 0 <= i < |r| ==> r[i] == s[i]
  {
    if |s| <= n then s else s[..n]
  }

  /** `$group`, `$sort: { totalSold: -1 }`, `$limit: 5`. */
  function TopProducts(orders: seq<seq<SoldLine>>): seq<Group> {
    Take(Sorting.Sort(Sorting.ByKey(TotalSoldKey, true), GroupLines(Unwind(orders))), 5)
  }

  /** The groups in `$sort` order, before `$limit`. */
  function Ranked(lines: seq<SoldLine>): seq<Group> {
    Sorting.Sort(Sorting.ByKey(TotalSoldKey, true), GroupLines(lines))
  }

  /** Sorting keeps the groups, and every group carries its product's totals. */
  lemma RankedGroups(lines: seq<SoldLine>)
    ensures multiset(Ranked(lines)) == multiset(GroupLines(lines))
    ensures Sorting.SortedBy(Sorting.ByKey(TotalSoldKey, true), Ranked(lines))
    ensures forall g :: g in Ranked(lines) ==>
      g.totalSold == SoldOf(lines, g.product) && g.revenue == RevenueOf(lines, g.product)
  {
    Sorting.ByKeyStrict(TotalSoldKey, true);
    Sorting.SortCorrect(Sorting.ByKey(TotalSoldKey, true), GroupLines(lines));
    forall g | g in Ranked(lines)
      ensures g.totalSold == SoldOf(lines, g.product) && g.revenue == RevenueOf(lines, g.product)
    {
      assert g in multiset(Ranked(lines));
      assert g in multiset(GroupLines(lines));
    }
  }

  /** Every product that was sold has a group somewhere in the ranking. */
  lemma RankedCovers(lines: seq<SoldLine>, k: nat)
    requires k < |lines|
    ensures exists m :: 0 <= m < |Ranked(lines)| && Ranked(lines)[m].product == lines[k].product
  {
    RankedGroups(lines);
    var groups, ps := GroupLines(lines), ProductsIn(lines);
    assert lines[k].product in ps;
    var n :| 0 <= n < |ps| && ps[n] == lines[k].product;
    assert groups[n] in multiset(groups);
    assert groups[n] in multiset(Ranked(lines));
    var m :| 0 <= m < |Ranked(lines)| && Ranked(lines)[m] == groups[n];
  }

  /**
   * The top list: at most five groups, by units sold from high to low, one per
   * product, each carrying that product's totals; any product left out sold no
   * more than every product kept.
   */
  lemma TopProductsSpec(orders: seq<seq<SoldLine>>)
    ensures var lines, r := Unwind(orders), TopProducts(orders);
      && |r| <= 5
      && (forall i, j :: 0 <= i < j < |r| ==> r[i].totalSold >= r[j].totalSold)
      && (forall i, j :: 0 <= i < j < |r| ==> r[i].product != r[j].product)
      && (forall g :: g in r ==> g.totalSold == SoldOf(lines, g.product) && g.revenue == RevenueOf(lines, g.product))
      && (forall k :: 0 <= k < |lines| ==>
            (exists g :: g in r && g.product == lines[k].product)
            || (|r| == 5 && forall g :: g in r ==> SoldOf(lines, lines[k].product) <= g.totalSold))
  {
    var lines := Unwind(orders);
    var ranked := Ranked(lines);
    RankedGroups(lines);
    var r := Take(ranked, 5);
    assert r == TopProducts(orders);
    forall i, j | 0 <= i < j < |r| ensures r[i].totalSold >= r[j].totalSold {
      assert !Sorting.ByKey(TotalSoldKey, true)(ranked[j], ranked[i]);
    }
    forall i, j | 0 <= i < j < |r| ensures r[i].product != r[j].product {
      GroupsDistinct(lines, ranked, i, j);
    }
    forall g | g in r ensures g in ranked {
      var i :| 0 <= i < |r| && r[i] == g;
      assert ranked[i] == g;
    }
    forall k | 0 <= k < |lines|
      ensures (exists g :: g in r && g.product == lines[k].product)
              || (|r| == 5 && forall g :: g in r ==> SoldOf(lines, lines[k].product) <= g.totalSold)
    {
      RankedCovers(lines, k);
      var m :| 0 <= m < |ranked| && ranked[m].product == lines[k].product;
      assert ranked[m] in ranked;
      if m < |r| {
        assert r[m] in r;
      } else {
        forall h | h in r ensures SoldOf(lines, lines[k].product) <= h.totalSold {
          var i :| 0 <= i < |r| && r[i] == h;
          assert !Sorting.ByKey(TotalSoldKey, true)(ranked[m], ranked[i]);
        }
      }
    }
  }

  /** `topProductsAggregation.find(item => item._id === product._id)`. */
  function FindGroup(top: seq<Group>, id: string): (r: Option<Group>)
    ensures r.Some? ==> r.value in top && r.value.product == id
    ensures r.None? ==> forall g :: g in top ==> g.product != id
  {
    if top == [] then None
    else if top[0].product == id then Some(top[0])
    else FindGroup(top[1..], id)
  }

  /**
   * `Product.find({ _id: { $in: ids } })` followed by the stats join, as
   * written: the products come back in catalog order, each with its group's
   * figures. `catalog` lists the stored product ids in store order.
   */
  function Joined(catalog: seq<string>, top: seq<Group>): (r: seq<Group>)
    ensures forall g :: g in r ==> g in top && g.product in catalog
    ensures forall p :: p in catalog && (exists g :: g in top && g.product == p) ==>
      exists g :: g in r && g.product == p
  {
    if catalog == [] then []
    else
      assert catalog == [catalog[0]] + catalog[1..];
      match FindGroup(top, catalog[0])
      case Some(g) => [g] + Joined(catalog[1..], top)
      case None => Joined(catalog[1..], top)
  }

  /** The join does not keep the ranking: the response can list a product that sold less first. */
  lemma JoinedUnsorted()
    ensures var top := [Group("b", 5, 0.0), Group("a", 1, 0.0)];
      && Descending(top)
      && !Descending(Joined(["a", "b"], top))
      && Joined(["a", "b"], top) == [Group("a", 1, 0.0), Group("b", 5, 0.0)]
  {
    var top := [Group("b", 5, 0.0), Group("a", 1, 0.0)];
    assert FindGroup(top, "a") == Some(Group("a", 1, 0.0));
    assert FindGroup(top, "b") == Some(Group("b", 5, 0.0));
    assert ["a", "b"][1..] == ["b"];
    var joined := Joined(["a", "b"], top);
    assert joined == [Group("a", 1, 0.0), Group("b", 5, 0.0)];
    assert joined[0].totalSold < joined[1].totalSold;
  }

  /** The join taken in ranking order: the ranked groups whose product still exists. */
  function RankedJoin(catalog: seq<string>, top: seq<Group>): (r: seq<Group>)
    ensures forall g :: g in r <==> g in top && g.product in catalog
  {
    if top == [] then []
    else if top[0].product in catalog then [top[0]] + RankedJoin(catalog, top[1..])
    else RankedJoin(catalog, top[1..])
  }

  predicate Descending(s: seq<Group>) {
    forall i, j :: 0 <= i < j < |s| ==> s[i].totalSold >= s[j].totalSold
  }

  lemma ConsDescending(x: Group, rest: seq<Group>)
    requires Descending(rest)
    requires forall g :: g in rest ==> x.totalSold >= g.totalSold
    ensures Descending([x] + rest)
  {
    var r := [x] + rest;
    forall i, j | 0 <= i < j < |r| ensures r[i].totalSold >= r[j].totalSold {
      assert r[j] == rest[j - 1];
      if i == 0 {
        assert rest[j - 1] in rest;
      } else {
        assert r[i] == rest[i - 1];
      }
    }
  }

  /** Taken in ranking order, the joined list stays sorted by units sold. */
  lemma {:induction false} RankedJoinSorted(catalog: seq<string>, top: seq<Group>)
    requires Descending(top)
    ensures Descending(RankedJoin(catalog, top))
  {
    if top != [] {
      var tail := top[1..];
      assert Descending(tail) by {
        forall i, j | 0 <= i < j < |tail| ensures tail[i].totalSold >= tail[j].totalSold {
          assert tail[i] == top[i + 1] && tail[j] == top[j + 1];
        }
      }
      RankedJoinSorted(catalog, tail);
      var rest := RankedJoin(catalog, tail);
      if top[0].product in catalog {
        forall g | g in rest ensures top[0].totalSold >= g.totalSold {
          var k :| 0 <= k < |tail| && tail[k] == g;
          assert top[k + 1] == g;
        }
        ConsDescending(top[0], rest);
      }
    }
  }

  /** A permutation of the groups names each product once. */
  lemma GroupsDistinct(lines: seq<SoldLine>, sorted: seq<Group>, i: nat, j: nat)
    requires multiset(sorted) == multiset(GroupLines(lines))
    requires i < j < |sorted|
    ensures sorted[i].product != sorted[j].product
  {
    var groups := GroupLines(lines);
    var ps := ProductsIn(lines);
    assert sorted[i] in multiset(groups) && sorted[j] in multiset(groups);
    var a :| 0 <= a < |groups| && groups[a] == sorted[i];
    var b :| 0 <= b < |groups| && groups[b] == sorted[j];
    CountAtMostOnce(groups, a);
    CountLowerBound(sorted, i, j);
    assert sorted[i] != sorted[j];
    assert a != b;
    assert ps[a] != ps[b];
  }

  /** A value at two positions is counted at least twice. */
  lemma CountLowerBound<T>(s: seq<T>, i: nat, j: nat)
    requires i < j < |s|
    ensures multiset(s)[s[i]] >= if s[i] == s[j] then 2 else 1
  {
    var left, right := s[..j], s[j..];
    assert s == left + right;
    assert s[i] == left[i];
    assert s[j] == right[0];
    assert multiset(left)[s[i]] >= 1;
    assert multiset(right)[s[j]] >= 1;
  }

  /** Groups with distinct products are distinct values, each counted once. */
  lemma CountAtMostOnce(groups: seq<Group>, a: nat)
    requires a < |groups|
    requires forall x, y :: 0 <= x < y < |groups| ==> groups[x].product != groups[y].product
    ensures multiset(groups)[groups[a]] <= 1
  {
    var v := groups[a];
    var pre, post := groups[..a], groups[a + 1..];
    assert groups == pre + [v] + post;
    forall x | 0 <= x < |pre| ensures pre[x] != v {
      assert pre[x] == groups[x];
    }
    forall y | 0 <= y < |post| ensures post[y] != v {
      assert post[y] == groups[a + 1 + y];
    }
    assert v !in pre && v !in post;
    assert multiset(pre)[v] == 0 && multiset(post)[v] == 0;
  }

  const MonthNames: seq<string> := ["Jan", "Feb", "Mar", "Apr", "May", "Jun", "Jul", "Aug", "Sep", "Oct", "Nov", "Dec"]

  /** `${monthNames[month - 1]} ${year}`; an index outside the array prints as "undefined". */
  function MonthLabel(month: int, year: nat): string {
    (if 1 <= month <= 12 then MonthNames[month - 1] else "undefined") + " " + DecimalString(year)
  }

  /** A label for month 1..12 reads back as its month name, a space, and the year. */
  lemma MonthLabelRoundTrip(month: int, year: nat)
    requires 1 <= month <= 12
    ensures var l := MonthLabel(month, year);
      |l| > 4 && l[..3] == MonthNames[month - 1] && l[3] == ' ' && DecimalValue(l[4..]) == year
  {
    var l := MonthLabel(month, year);
    assert l[4..] == DecimalString(year);
    DecimalRoundTrip(year);
  }

  /** Distinct (month, year) pairs get distinct labels. */
  lemma MonthLabelInjective(m1: int, y1: nat, m2: int, y2: nat)
    requires 1 <= m1 <= 12 && 1 <= m2 <= 12
    requires MonthLabel(m1, y1) == MonthLabel(m2, y2)
    ensures m1 == m2 && y1 == y2
  {
    MonthLabelRoundTrip(m1, y1);
    MonthLabelRoundTrip(m2, y2);
  }
}
