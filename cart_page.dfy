/**
 * The cart page (client/src/pages/CartPage.tsx): the free-shipping hint, the
 * enabling of the "+" control, and the actions its three controls dispatch to
 * the reducer. The totals it shows are `Pricing.Summarize`.
 */
module CartPage {
  import opened Js
  import opened ClientTypes
  import Pricing
  import opened AppContext

  /** The hint "Add X more for free shipping!", shown while the subtotal is below 50. */
  function FreeShippingHint(subtotal: real): (r: Option<real>)
    ensures r.Some? <==> subtotal < 50.0
    ensures r.Some? ==> r.value > 0.0 && subtotal + r.value == 50.0
  {
    if subtotal < 50.0 then Some(50.0 - subtotal) else None
  }

  /**
   * The hint and the fee disagree at the threshold: at exactly 50 the fee is
   * charged with no hint, and adding exactly the hinted amount still pays it.
   */
  lemma HintedAmountNotEnough(subtotal: real)
    requires subtotal < 50.0
    ensures Pricing.Shipping(subtotal + FreeShippingHint(subtotal).value) == 9.99
    ensures FreeShippingHint(50.0).None? && Pricing.Shipping(50.0) == 9.99
  {
  }

  /**
   * The hint as the fee rule implies it, for subtotals in whole cents: shown
   * exactly when the fee is charged, naming the least amount that waives it.
   */
  function CorrectedHint(subtotal: real): (r: Option<real>)
    ensures r.Some? <==> Pricing.Shipping(subtotal) > 0.0
    ensures r.Some? ==> Pricing.Shipping(subtotal + r.value) == 0.0
    ensures r.Some? ==> subtotal + r.value == 50.01
  {
    if subtotal <= 50.0 then Some(50.01 - subtotal) else None
  }

  /** `disabled={item.quantity >= (item.product.stock || 0)}`. */
  predicate PlusDisabled(item: CartItem) {
    item.quantity >= item.product.stock.GetOr(0)
  }

  /** A product with no stock figure, or a stock of 0, can never be increased from the cart. */
  lemma PlusDisabledWithoutStock(item: CartItem)
    requires item.quantity >= 0
    requires item.product.stock.None? || item.product.stock == Some(0)
    ensures PlusDisabled(item)
  {
  }

  function Minus(item: CartItem): Action {
    UpdateCartQuantity(item.id, item.quantity - 1)
  }

  function Plus(item: CartItem): Action {
    UpdateCartQuantity(item.id, item.quantity + 1)
  }

  function Remove(item: CartItem): Action {
    RemoveFromCart(item.id)
  }

  /** "−" on a line of quantity 1 removes every line with that id. */
  lemma MinusAtOneRemoves(s: AppState, item: CartItem)
    requires item.quantity == 1
    ensures forall x :: x in Reduce(s, Minus(item)).cartItems ==> x.id != item.id
  {
    UpdateQuantitySpec(s, item.id, 0);
  }

  /** "−" on a line of quantity above 1 keeps it, one lower, and every other positive line. */
  lemma MinusAboveOneDecrements(s: AppState, item: CartItem)
    requires item in s.cartItems && item.quantity > 1
    ensures item.(quantity := item.quantity - 1) in Reduce(s, Minus(item)).cartItems
    ensures forall x :: x in s.cartItems && x.id != item.id && x.quantity > 0 ==> x in Reduce(s, Minus(item)).cartItems
  {
    UpdateQuantitySpec(s, item.id, item.quantity - 1);
  }

  /** "+" on a line keeps it, one higher, and every other positive line. */
  lemma PlusIncrements(s: AppState, item: CartItem)
    requires item in s.cartItems && item.quantity >= 0
    ensures item.(quantity := item.quantity + 1) in Reduce(s, Plus(item)).cartItems
    ensures forall x :: x in s.cartItems && x.id != item.id && x.quantity > 0 ==> x in Reduce(s, Plus(item)).cartItems
    ensures forall x :: x in Reduce(s, Plus(item)).cartItems && x.id == item.id ==> x.quantity == item.quantity + 1
  {
    UpdateQuantitySpec(s, item.id, item.quantity + 1);
  }

  /** The trash control removes the line and nothing else. */
  lemma RemoveDropsLine(s: AppState, item: CartItem)
    ensures forall x :: x in Reduce(s, Remove(item)).cartItems <==> x in s.cartItems && x.id != item.id
  {
    RemoveFromCartSpec(s, item.id);
  }
}
