/**
 * The order-summary arithmetic that the cart page (client/src/pages/CartPage.tsx)
 * and the checkout page (client/src/pages/CheckoutPage.tsx) both compute from
 * the cart: subtotal, 10% tax, a flat shipping fee waived strictly above 50,
 * and their sum. Prices are exact `real`s here.
 */
module Pricing {
  import opened ClientTypes

  const TaxRate: real := 0.1
  const FreeShippingAbove: real := 50.0
  const ShippingFee: real := 9.99

  function LineTotal(item: CartItem): real {
    item.product.price * (item.quantity as real)
  }

  /** `cartItems.reduce((sum, item) => sum + price * quantity, 0)`, folded from the left. */
  function Subtotal(items: seq<CartItem>): real {
    if items == [] then 0.0 else Subtotal(items[..|items| - 1]) + LineTotal(items[|items| - 1])
  }

  function Tax(subtotal: real): real {
    subtotal * TaxRate
  }

  function Shipping(subtotal: real): real {
    if subtotal > FreeShippingAbove then 0.0 else ShippingFee
  }

  function Total(subtotal: real): real {
    subtotal + Tax(subtotal) + Shipping(subtotal)
  }

  datatype Summary = Summary(subtotal: real, tax: real, shipping: real, total: real)

  /** The four figures both pages show for a cart. */
  function Summarize(items: seq<CartItem>): (r: Summary)
    ensures r.subtotal == Subtotal(items)
    ensures r.tax == r.subtotal / 10.0
    ensures r.shipping == 0.0 <==> r.subtotal > 50.0
    ensures r.shipping == 0.0 || r.shipping == 9.99
    ensures r.total == r.subtotal + r.tax + r.shipping
  {
    var s := Subtotal(items);
    Summary(s, Tax(s), Shipping(s), Total(s))
  }

  /** The subtotal of a concatenation is the sum of the subtotals, so it is 0 for an empty cart and grows line by line. */
  lemma {:induction false} SubtotalAppend(a: seq<CartItem>, b: seq<CartItem>)
    ensures Subtotal(a + b) == Subtotal(a) + Subtotal(b)
  {
    if b == [] {
      assert a + b == a;
    } else {
      var init := b[..|b| - 1];
      assert (a + b)[..|a + b| - 1] == a + init;
      assert (a + b)[|a + b| - 1] == b[|b| - 1];
      SubtotalAppend(a, init);
    }
  }

  /** Unfolding the left fold from the front: the first line plus the subtotal of the rest. */
  lemma {:induction false} SubtotalCons(x: CartItem, rest: seq<CartItem>)
    ensures Subtotal([x] + rest) == LineTotal(x) + Subtotal(rest)
  {
    SubtotalAppend([x], rest);
    assert [x][..0] == [];
  }

  /** With non-negative prices and quantities the subtotal is non-negative. */
  lemma {:induction false} SubtotalNonNegative(items: seq<CartItem>)
    requires forall i :: 0 <= i < |items| ==> items[i].product.price >= 0.0 && items[i].quantity >= 0
    ensures Subtotal(items) >= 0.0
  {
    if items != [] {
      SubtotalNonNegative(items[..|items| - 1]);
      var last := items[|items| - 1];
      assert last.product.price * (last.quantity as real) >= 0.0;
    }
  }

  /** Shipping is waived strictly above 50: a subtotal of exactly 50 still pays the fee. */
  lemma ShippingThreshold(subtotal: real)
    ensures Shipping(subtotal) == 0.0 <==> subtotal > 50.0
    ensures subtotal <= 50.0 ==> Shipping(subtotal) == 9.99
    ensures Shipping(50.0) == 9.99
  {
  }

  /** The total is 110% of the subtotal plus the fee. */
  lemma TotalFormula(subtotal: real)
    ensures Total(subtotal) == subtotal * 1.1 + Shipping(subtotal)
    ensures subtotal > 50.0 ==> Total(subtotal) == subtotal * 1.1
    ensures subtotal <= 50.0 ==> Total(subtotal) == subtotal * 1.1 + 9.99
  {
  }

  /** Worked examples: a subtotal of 55 totals 60.5, one of 20 totals 31.99, one of exactly 50 totals 64.99. */
  lemma TotalExamples()
    ensures Total(55.0) == 60.5
    ensures Total(20.0) == 31.99
    ensures Total(50.0) == 64.99
  {
  }

  /** Crossing the threshold lowers the total: a dearer cart can cost less in all. */
  lemma TotalNotMonotone()
    ensures 50.0 < 51.0 && Total(51.0) < Total(50.0)
  {
  }

  /** A two-line cart: 2 × 10 + 1 × 35 is 55, which ships free. */
  lemma SummaryExample(p: Product, q: Product)
    requires p.price == 10.0 && q.price == 35.0
    ensures var r := Summarize([CartItem("a", p, 2), CartItem("b", q, 1)]);
      r.subtotal == 55.0 && r.shipping == 0.0 && r.total == 60.5
  {
    var items := [CartItem("a", p, 2), CartItem("b", q, 1)];
    assert items[..1] == [CartItem("a", p, 2)];
    assert items[..1][..0] == [];
    assert Subtotal(items[..1]) == 20.0;
    assert Subtotal(items) == 55.0;
  }
}
