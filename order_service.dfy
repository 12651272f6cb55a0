/**
 * The client's order service (client/src/services/orderService.ts): the
 * sanitised payload `createOrder` posts, and the message it rethrows on
 * failure. The post itself is not modelled; its outcome is a parameter.
 */
module OrderService {
  import opened Js
  import opened ClientTypes

  datatype ItemRef = ItemRef(productId: Option<string>, quantity: int)

  /** The address the checkout form hands over, which also carries a phone number. */
  datatype FormAddress = FormAddress(
    fullName: string, email: string, phone: string, address: string,
    city: string, state: string, zipCode: string, country: string)

  datatype PaymentDetails = PaymentDetails(
    cardNumber: Option<string>, cardName: Option<string>, expiryDate: Option<string>, cvv: Option<string>)

  /** `CreateOrderData`, plus the `userId` the checkout page adds to it. */
  datatype OrderData = OrderData(
    items: seq<ItemRef>,
    userId: Option<string>,
    shippingAddress: FormAddress,
    paymentMethod: string,
    total: real,
    paymentDetails: Option<PaymentDetails>)

  /** The body of `POST /orders/checkout`; an `undefined` paymentDetails is dropped when serialised. */
  datatype Sanitized = Sanitized(
    items: seq<ItemRef>,
    shippingAddress: ShippingAddress,
    paymentMethod: string,
    total: real,
    paymentDetails: Option<PaymentDetails>)

  /** Half-cents rounded up: `toFixed(2)` on a non-negative number. */
  function RoundHalfUp(x: real): real {
    ((x * 100.0 + 0.5).Floor as real) / 100.0
  }

  /** `Number(x.toFixed(2))`: round to the nearest cent, halves away from zero. */
  function RoundCents(x: real): real {
    if x < 0.0 then -RoundHalfUp(-x) else RoundHalfUp(x)
  }

  /** The rounded total is a whole number of cents within half a cent of the input. */
  lemma RoundCentsClose(x: real)
    ensures -0.005 <= RoundCents(x) - x <= 0.005
    ensures (RoundCents(x) * 100.0).Floor as real == RoundCents(x) * 100.0
  {
    var y := if x < 0.0 then -x else x;
    var f := (y * 100.0 + 0.5).Floor;
    assert f as real <= y * 100.0 + 0.5 < f as real + 1.0;
    assert RoundHalfUp(y) * 100.0 == f as real;
    if x < 0.0 {
      assert RoundCents(x) * 100.0 == (-f) as real;
    }
  }

  /** A total already in whole cents is sent unchanged. */
  lemma RoundCentsExact(k: int)
    ensures RoundCents((k as real) / 100.0) == (k as real) / 100.0
  {
    var x := (k as real) / 100.0;
    if x < 0.0 {
      var f := (-x * 100.0 + 0.5).Floor;
      assert -x * 100.0 == (-k) as real;
      assert f as real <= (-k) as real + 0.5 < f as real + 1.0;
      assert f == -k;
    } else {
      var f := (x * 100.0 + 0.5).Floor;
      assert x * 100.0 == k as real;
      assert f as real <= k as real + 0.5 < f as real + 1.0;
      assert f == k;
    }
  }

  /** The `sanitizedOrderData` expression. */
  function Sanitize(d: OrderData): (r: Sanitized)
    ensures |r.items| == |d.items|
    ensures forall i :: 0 <= i < |d.items| ==> r.items[i] == ItemRef(d.items[i].productId, d.items[i].quantity)
    ensures r.paymentMethod == d.paymentMethod
    ensures r.paymentDetails.Some? ==> d.paymentMethod == "card" && r.paymentDetails == d.paymentDetails
    ensures d.paymentMethod == "card" ==> r.paymentDetails == d.paymentDetails
  {
    Sanitized(
      seq(|d.items|, i requires 0 <= i < |d.items| => ItemRef(d.items[i].productId, d.items[i].quantity)),
      AddressWithoutPhone(d.shippingAddress),
      d.paymentMethod,
      RoundCents(d.total),
      if d.paymentMethod == "card" then d.paymentDetails else None)
  }

  function AddressWithoutPhone(a: FormAddress): ShippingAddress {
    ShippingAddress(a.fullName, a.email, a.address, a.city, a.state, a.zipCode, a.country)
  }

  /** The phone number is the only address field dropped: two addresses that differ only in it are sent alike. */
  lemma PhoneDropped(d: OrderData, phone: string)
    ensures Sanitize(d.(shippingAddress := d.shippingAddress.(phone := phone))) == Sanitize(d)
    ensures var a := Sanitize(d).shippingAddress;
      a.fullName == d.shippingAddress.fullName && a.email == d.shippingAddress.email
      && a.address == d.shippingAddress.address && a.city == d.shippingAddress.city
      && a.state == d.shippingAddress.state && a.zipCode == d.shippingAddress.zipCode
      && a.country == d.shippingAddress.country
  {
  }

  /** The user id never reaches the payload. */
  lemma UserIdDropped(d: OrderData, u: Option<string>)
    ensures Sanitize(d.(userId := u)) == Sanitize(d)
  {
  }

  /** The sent total is the input total to the nearest cent. */
  lemma SanitizedTotal(d: OrderData)
    ensures -0.005 <= Sanitize(d).total - d.total <= 0.005
  {
    RoundCentsClose(d.total);
  }

  /** A failed post: either the server answered with an error body, or there was no response. */
  datatype PostFailure = HttpError(serverMessage: Option<string>) | NoResponse

  /** The message of the Error `createOrder` rethrows. */
  function FailureMessage(f: PostFailure): (m: string)
    ensures m != ""
    ensures f.HttpError? && Truthy(f.serverMessage) ==> m == f.serverMessage.value
    ensures f.HttpError? && !Truthy(f.serverMessage) ==> m == "Failed to create order"
    ensures f.NoResponse? ==> m == "Network error occurred while creating order"
  {
    match f
    case HttpError(msg) => OrElse(msg, "Failed to create order")
    case NoResponse => "Network error occurred while creating order"
  }
}
