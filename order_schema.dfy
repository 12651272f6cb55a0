/**
 * The order schema (server/models/Order.js) as validity predicates and a
 * defaulting function: order items, the shipping address, the payment-method
 * and status enumerations, and the numeric defaults.
 */
module OrderModel {
  import opened Js

  const PaymentMethods: seq<string> := ["Credit Card", "PayPal", "UPI", "Cash on Delivery"]
  const Statuses: seq<string> := ["Processing", "Shipped", "Delivered", "Cancelled"]

  /** A required String path holds a non-empty string. */
  predicate Present(o: Option<string>) {
    o.Some? && o.value != ""
  }

  datatype ItemDraft = ItemDraft(
    product: Option<string>, name: Option<string>, quantity: Option<int>, price: Option<real>, image: Option<string>)

  /** An order item needs a product and a price, and a quantity of at least 1. */
  predicate ValidItem(i: ItemDraft) {
    i.product.Some? && i.price.Some? && i.quantity.Some? && i.quantity.value >= 1
  }

  datatype AddressDraft = AddressDraft(
    addressLine1: Option<string>, addressLine2: Option<string>, city: Option<string>,
    state: Option<string>, postalCode: Option<string>, country: Option<string>)

  /** addressLine1, city, postalCode and country are required; addressLine2 and state are not. */
  predicate ValidAddress(a: AddressDraft) {
    Present(a.addressLine1) && Present(a.city) && Present(a.postalCode) && Present(a.country)
  }

  /** The fields handed to the store; `None` is a path left undefined, and an absent item array is empty. */
  datatype OrderDraft = OrderDraft(
    user: Option<string>,
    orderItems: seq<ItemDraft>,
    shippingAddress: AddressDraft,
    paymentMethod: Option<string>,
    taxAmount: Option<real>,
    shippingFee: Option<real>,
    totalAmount: Option<real>,
    status: Option<string>)

  datatype OrderDoc = OrderDoc(
    user: Option<string>,
    orderItems: seq<ItemDraft>,
    shippingAddress: AddressDraft,
    paymentMethod: Option<string>,
    taxAmount: real,
    shippingFee: real,
    totalAmount: Option<real>,
    status: string)

  /** Schema defaults: tax and shipping fee 0, status "Processing". */
  function Prepare(d: OrderDraft): (r: OrderDoc)
    ensures d.taxAmount.None? ==> r.taxAmount == 0.0
    ensures d.shippingFee.None? ==> r.shippingFee == 0.0
    ensures d.status.None? ==> r.status == "Processing"
    ensures r.user == d.user && r.orderItems == d.orderItems && r.totalAmount == d.totalAmount
  {
    OrderDoc(d.user, d.orderItems, d.shippingAddress, d.paymentMethod,
             d.taxAmount.GetOr(0.0), d.shippingFee.GetOr(0.0), d.totalAmount, d.status.GetOr("Processing"))
  }

  predicate Valid(o: OrderDoc) {
    && o.user.Some?
    && (forall i :: 0 <= i < |o.orderItems| ==> ValidItem(o.orderItems[i]))
    && ValidAddress(o.shippingAddress)
    && o.paymentMethod.Some? && o.paymentMethod.value in PaymentMethods
    && o.totalAmount.Some?
    && o.status in Statuses
  }

  /** The minimal valid order: a user, an address with its four required parts, a listed method, a total; defaults do the rest. */
  lemma MinimalOrderValid(user: string, line1: string, city: string, postal: string, country: string, payment: string, total: real)
    requires line1 != "" && city != "" && postal != "" && country != ""
    requires payment in PaymentMethods
    ensures var d := OrderDraft(Some(user), [], AddressDraft(Some(line1), None, Some(city), None, Some(postal), Some(country)),
                                Some(payment), None, None, Some(total), None);
      Valid(Prepare(d)) && Prepare(d).status == "Processing" && Prepare(d).taxAmount == 0.0 && Prepare(d).shippingFee == 0.0
  {
  }

  /** Any item with a quantity below 1, or without product or price, makes the order invalid. */
  lemma BadItemInvalid(d: OrderDraft, k: nat)
    requires k < |d.orderItems| && !ValidItem(d.orderItems[k])
    ensures !Valid(Prepare(d))
  {
  }

  /** Only the four listed statuses and methods validate. */
  lemma EnumsEnforced(d: OrderDraft)
    ensures Valid(Prepare(d)) ==> Prepare(d).status in Statuses && d.paymentMethod.value in PaymentMethods
    ensures d.status.Some? && d.status.value !in Statuses ==> !Valid(Prepare(d))
  {
  }
}
