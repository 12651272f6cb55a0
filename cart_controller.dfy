/**
 * The server's cart controller (server/controllers/cartController.js): one
 * cart document per user, holding an ordered list of (product, quantity)
 * entries. Product references are compared by their string form, as
 * `item.product.toString() === productId` does.
 */
module CartController {
  import opened Js

  type UserId = string

  datatype Entry = Entry(product: string, quantity: int)

  /** What a handler answers: 200 with the cart's items, or 400 / 404 with a message. */
  datatype Response =
    | Ok(items: seq<Entry>)
    | BadRequest(message: string)
    | NotFound(message: string)

  /** The position `findIndex` reports: the first entry for p, or -1. */
  function IndexOf(items: seq<Entry>, p: string): (i: int)
    ensures -1 <= i < |items|
    ensures i >= 0 ==> items[i].product == p
    ensures i >= 0 ==> forall j :: 0 <= j < i ==> items[j].product != p
    ensures i == -1 <==> forall j :: 0 <= j < |items| ==> items[j].product != p
  {
    if items == [] then -1
    else if items[0].product == p then 0
    else
      var k := IndexOf(items[1..], p);
      if k == -1 then -1 else k + 1
  }

  /** `cart.items.findIndex(item => item.product.toString() === p)`. */
  method FindIndex(items: seq<Entry>, p: string) returns (i: int)
    ensures i == IndexOf(items, p)
  {
    i := 0;
    while i < |items|
      invariant 0 <= i <= |items|
      invariant forall j :: 0 <= j < i ==> items[j].product != p
    {
      if items[i].product == p {
        return;
      }
      i := i + 1;
    }
    i := -1;
  }

  /** The items after `quantity += q` on the entry for p, or after pushing a new entry. */
  function Added(items: seq<Entry>, p: string, q: int): seq<Entry> {
    var i := IndexOf(items, p);
    if i > -1 then items[i := Entry(p, items[i].quantity + q)] else items + [Entry(p, q)]
  }

  /** The items after `quantity = q` on the entry for p, or after pushing a new entry. */
  function Assigned(items: seq<Entry>, p: string, q: int): seq<Entry> {
    var i := IndexOf(items, p);
    if i > -1 then items[i := Entry(p, q)] else items + [Entry(p, q)]
  }

  /** `items.filter(item => item.product.toString() !== p)`. */
  function Removed(items: seq<Entry>, p: string): seq<Entry> {
    if items == [] then []
    else if items[0].product == p then Removed(items[1..], p)
    else [items[0]] + Removed(items[1..], p)
  }

  /** At most one entry per product. */
  ghost predicate Unique(items: seq<Entry>) {
    forall i, j :: 0 <= i < j < |items| ==> items[i].product != items[j].product
  }

  class CartStore {
    var carts: map<UserId, seq<Entry>>

    constructor ()
      ensures carts == map[]
    {
      carts := map[];
    }

    /** getCart: the user's items, or an empty item list when the user has no cart. */
    function GetCart(user: UserId): (r: seq<Entry>)
      reads this
      ensures user in carts ==> r == carts[user]
      ensures user !in carts ==> r == []
    {
      if user in carts then carts[user] else []
    }

    /** addToCart: `quantity` defaults to 1 when the request omits it. */
    method AddToCart(user: UserId, productId: Option<string>, quantity: Option<int>) returns (r: Response)
      modifies this
      ensures !Truthy(productId) ==> r == BadRequest("Product ID is required") && carts == old(carts)
      ensures Truthy(productId) ==>
        var q := quantity.GetOr(1);
        && carts == old(carts)[user := if user in old(carts) then Added(old(carts)[user], productId.value, q)
                                       else [Entry(productId.value, q)]]
        && r == Ok(carts[user])
    {
      if !Truthy(productId) {
        return BadRequest("Product ID is required");
      }
      var p := productId.value;
      var q := if quantity.Some? then quantity.value else 1;
      if user !in carts {
        carts := carts[user := [Entry(p, q)]];
      } else {
        var items := carts[user];
        var i := FindIndex(items, p);
        if i > -1 {
          items := items[i := items[i].(quantity := items[i].quantity + q)];
        } else {
          items := items + [Entry(p, q)];
        }
        carts := carts[user := items];
      }
      r := Ok(carts[user]);
    }

    /** updateCart: both fields are required; the quantity is stored as given, zero and negatives included. */
    method UpdateCart(user: UserId, productId: Option<string>, quantity: Option<int>) returns (r: Response)
      modifies this
      ensures (!Truthy(productId) || quantity.None?) ==>
        r == BadRequest("Product ID and quantity are required") && carts == old(carts)
      ensures Truthy(productId) && quantity.Some? ==>
        && carts == old(carts)[user := if user in old(carts) then Assigned(old(carts)[user], productId.value, quantity.value)
                                       else [Entry(productId.value, quantity.value)]]
        && r == Ok(carts[user])
    {
      if !Truthy(productId) || quantity.None? {
        return BadRequest("Product ID and quantity are required");
      }
      var p, q := productId.value, quantity.value;
      if user !in carts {
        carts := carts[user := [Entry(p, q)]];
      } else {
        var items := carts[user];
        var i := FindIndex(items, p);
        if i > -1 {
          items := items[i := items[i].(quantity := q)];
        } else {
          items := items + [Entry(p, q)];
        }
        carts := carts[user := items];
      }
      r := Ok(carts[user]);
    }

    /** removeFromCart: 404 without a cart; otherwise every entry for the product goes. */
    method RemoveFromCart(user: UserId, productId: string) returns (r: Response)
      modifies this
      ensures user !in old(carts) ==> r == NotFound("Cart not found") && carts == old(carts)
      ensures user in old(carts) ==>
        carts == old(carts)[user := Removed(old(carts)[user], productId)] && r == Ok(carts[user])
    {
      if user !in carts {
        return NotFound("Cart not found");
      }
      carts := carts[user := Removed(carts[user], productId)];
      r := Ok(carts[user]);
    }
  }

  /** Adding a product that is present changes only its entry, by exactly q. */
  lemma AddPresent(items: seq<Entry>, p: string, q: int)
    requires IndexOf(items, p) >= 0
    ensures var i, r := IndexOf(items, p), Added(items, p, q);
      && |r| == |items|
      && r[i] == Entry(p, items[i].quantity + q)
      && forall j :: 0 <= j < |items| && j != i ==> r[j] == items[j]
  {
  }

  /** Adding an absent product appends one entry and keeps the rest. */
  lemma AddAbsent(items: seq<Entry>, p: string, q: int)
    requires forall j :: 0 <= j < |items| ==> items[j].product != p
    ensures Added(items, p, q) == items + [Entry(p, q)]
    ensures Assigned(items, p, q) == items + [Entry(p, q)]
  {
  }

  /** After an update the product has exactly one entry carrying exactly the given quantity, even 0. */
  lemma AssignedHolds(items: seq<Entry>, p: string, q: int)
    requires Unique(items)
    ensures var r := Assigned(items, p, q);
      exists k :: 0 <= k < |r| && r[k] == Entry(p, q) && forall j :: 0 <= j < |r| && j != k ==> r[j].product != p
  {
    var i := IndexOf(items, p);
    var r := Assigned(items, p, q);
    if i > -1 {
      assert r[i] == Entry(p, q);
    } else {
      assert r[|items|] == Entry(p, q);
    }
  }

  /** add and update never create a second entry for a product. */
  lemma UniquePreserved(items: seq<Entry>, p: string, q: int)
    requires Unique(items)
    ensures Unique(Added(items, p, q))
    ensures Unique(Assigned(items, p, q))
  {
  }

  lemma {:induction false} RemovedSpec(items: seq<Entry>, p: string)
    ensures forall e :: e in Removed(items, p) <==> e in items && e.product != p
    ensures |Removed(items, p)| <= |items|
  {
    if items != [] {
      RemovedSpec(items[1..], p);
      assert items == [items[0]] + items[1..];
    }
  }

  /** Removal keeps the other entries in their order: it distributes over concatenation. */
  lemma {:induction false} RemovedAppend(a: seq<Entry>, b: seq<Entry>, p: string)
    ensures Removed(a + b, p) == Removed(a, p) + Removed(b, p)
  {
    if a != [] {
      assert (a + b)[1..] == a[1..] + b;
      RemovedAppend(a[1..], b, p);
    } else {
      assert a + b == b;
    }
  }

  /** Removing a product that is not in the cart changes nothing. */
  lemma {:induction false} RemovedAbsent(items: seq<Entry>, p: string)
    requires forall j :: 0 <= j < |items| ==> items[j].product != p
    ensures Removed(items, p) == items
  {
    if items != [] {
      RemovedAbsent(items[1..], p);
      assert items == [items[0]] + items[1..];
    }
  }

  /** removeFromCart is idempotent. */
  lemma RemovedIdempotent(items: seq<Entry>, p: string)
    ensures Removed(Removed(items, p), p) == Removed(items, p)
  {
    var r := Removed(items, p);
    RemovedSpec(items, p);
    forall j | 0 <= j < |r| ensures r[j].product != p {
      assert r[j] in r;
    }
    RemovedAbsent(r, p);
  }

  lemma {:induction false} UniqueRemoved(items: seq<Entry>, p: string)
    requires Unique(items)
    ensures Unique(Removed(items, p))
  {
    if items != [] {
      assert Unique(items[1..]) by {
        forall i, j | 0 <= i < j < |items| - 1 ensures items[1..][i].product != items[1..][j].product {
          assert items[1..][i] == items[i + 1] && items[1..][j] == items[j + 1];
        }
      }
      UniqueRemoved(items[1..], p);
      RemovedSpec(items[1..], p);
      if items[0].product != p {
        var t := Removed(items[1..], p);
        var r := [items[0]] + t;
        forall i, j | 0 <= i < j < |r| ensures r[i].product != r[j].product {
          if i == 0 {
            assert r[j] == t[j - 1] && t[j - 1] in t;
            var k :| 0 <= k < |items[1..]| && items[1..][k] == r[j];
            assert items[k + 1] == r[j];
          } else {
            assert r[i] == t[i - 1] && r[j] == t[j - 1];
          }
        }
      }
    }
  }

  /** The quantity recorded for p, or 0 when the cart has no entry for it. */
  function QuantityOf(items: seq<Entry>, p: string): int {
    var i := IndexOf(items, p);
    if i > -1 then items[i].quantity else 0
  }

  /** A run of add requests for the same product and the given quantities. */
  function AddAll(items: seq<Entry>, p: string, qs: seq<int>): seq<Entry>
    decreases |qs|
  {
    if qs == [] then items else AddAll(Added(items, p, qs[0]), p, qs[1..])
  }

  function Sum(qs: seq<int>): int {
    if qs == [] then 0 else qs[0] + Sum(qs[1..])
  }

  /** Repeated adds accumulate into one entry whose quantity is the sum of the added quantities. */
  lemma {:induction false} AddsAccumulate(items: seq<Entry>, p: string, qs: seq<int>)
    requires Unique(items)
    requires |qs| > 0
    decreases |qs|
    ensures var r := AddAll(items, p, qs);
      && Unique(r)
      && IndexOf(r, p) >= 0
      && QuantityOf(r, p) == QuantityOf(items, p) + Sum(qs)
  {
    var next := Added(items, p, qs[0]);
    UniquePreserved(items, p, qs[0]);
    var i := IndexOf(items, p);
    if i > -1 {
      assert next[i] == Entry(p, items[i].quantity + qs[0]);
      assert IndexOf(next, p) == i;
    } else {
      assert next[|items|] == Entry(p, qs[0]);
      assert IndexOf(next, p) == |items|;
    }
    assert QuantityOf(next, p) == QuantityOf(items, p) + qs[0];
    if |qs| > 1 {
      AddsAccumulate(next, p, qs[1..]);
    }
  }
}
