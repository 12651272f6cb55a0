/**
 * The checkout page (client/src/pages/CheckoutPage.tsx): the three-step form
 * (shipping, payment, review), its per-step validation, the edits that clear
 * a field's error, and the order `handleSubmit` hands to the order service.
 */
module CheckoutPage {
  import opened Js
  import opened ClientTypes
  import Pricing
  import opened OrderService
  import AppContext

  datatype Field =
    | FullName | Email | Phone | Address | City | State | ZipCode | Country
    | PaymentMethod | CardNumber | ExpiryDate | Cvv | CardName

  /** The page's `FormData`: the shipping address, a phone number, the payment method and card fields. */
  datatype FormData = FormData(
    fullName: string, email: string, phone: string, address: string, city: string,
    state: string, zipCode: string, country: string, paymentMethod: string,
    cardNumber: string, expiryDate: string, cvv: string, cardName: string)

  const InitialForm: FormData :=
    FormData("", "", "", "", "", "", "", "United States", "card", "", "", "", "")

  function Get(f: FormData, k: Field): string {
    match k
    case FullName => f.fullName
    case Email => f.email
    case Phone => f.phone
    case Address => f.address
    case City => f.city
    case State => f.state
    case ZipCode => f.zipCode
    case Country => f.country
    case PaymentMethod => f.paymentMethod
    case CardNumber => f.cardNumber
    case ExpiryDate => f.expiryDate
    case Cvv => f.cvv
    case CardName => f.cardName
  }

  /** `{ ...prev, [field]: value }`. */
  function With(f: FormData, k: Field, v: string): (r: FormData)
    ensures Get(r, k) == v
    ensures forall j :: j != k ==> Get(r, j) == Get(f, j)
  {
    match k
    case FullName => f.(fullName := v)
    case Email => f.(email := v)
    case Phone => f.(phone := v)
    case Address => f.(address := v)
    case City => f.(city := v)
    case State => f.(state := v)
    case ZipCode => f.(zipCode := v)
    case Country => f.(country := v)
    case PaymentMethod => f.(paymentMethod := v)
    case CardNumber => f.(cardNumber := v)
    case ExpiryDate => f.(expiryDate := v)
    case Cvv => f.(cvv := v)
    case CardName => f.(cardName := v)
  }

  function Message(k: Field): string {
    match k
    case FullName => "Full name is required"
    case Email => "Email is required"
    case Phone => "Phone is required"
    case Address => "Address is required"
    case City => "City is required"
    case State => "State is required"
    case ZipCode => "ZIP code is required"
    case CardNumber => "Card number is required"
    case ExpiryDate => "Expiry date is required"
    case Cvv => "CVV is required"
    case CardName => "Cardholder name is required"
    case _ => ""
  }

  const ShippingFields: set<Field> := {FullName, Email, Phone, Address, City, State, ZipCode}
  const CardFields: set<Field> := {CardNumber, ExpiryDate, Cvv, CardName}

  /** The fields `validateStep(step)` looks at. */
  function Checked(f: FormData, step: int): set<Field> {
    if step == 1 then ShippingFields
    else if step == 2 && f.paymentMethod == "card" then CardFields
    else {}
  }

  /** The error object `validateStep(step)` builds: each checked field that is empty, with its message. */
  function StepErrors(f: FormData, step: int): map<Field, string> {
    Missing(f, Checked(f, step))
  }

  /** Each of the given fields that is empty, with its message. */
  function Missing(f: FormData, ks: set<Field>): map<Field, string> {
    map k | k in ks && Get(f, k) == "" :: Message(k)
  }

  /** One more check extends the errors to one more field. */
  lemma FlagExtends(f: FormData, ks: set<Field>, k: Field)
    ensures Flag(Missing(f, ks), f, k) == Missing(f, ks + {k})
  {
  }

  /** `if (!formData[k]) newErrors[k] = message`. */
  function Flag(e: map<Field, string>, f: FormData, k: Field): map<Field, string> {
    if Get(f, k) == "" then e[k := Message(k)] else e
  }

  /** The seven checks of step 1, made one after the other, build exactly the step-1 errors. */
  lemma ShippingFlags(f: FormData)
    ensures Flag(Flag(Flag(Flag(Flag(Flag(Flag(map[], f, FullName), f, Email), f, Phone), f, Address), f, City), f, State), f, ZipCode)
      == StepErrors(f, 1)
  {
    assert Missing(f, {}) == map[];
    FlagExtends(f, {}, FullName);
    FlagExtends(f, {FullName}, Email);
    FlagExtends(f, {FullName, Email}, Phone);
    FlagExtends(f, {FullName, Email, Phone}, Address);
    FlagExtends(f, {FullName, Email, Phone, Address}, City);
    FlagExtends(f, {FullName, Email, Phone, Address, City}, State);
    FlagExtends(f, {FullName, Email, Phone, Address, City, State}, ZipCode);
    assert {} + {FullName} == {FullName};
    assert {FullName} + {Email} == {FullName, Email};
    assert {FullName, Email} + {Phone} == {FullName, Email, Phone};
    assert {FullName, Email, Phone} + {Address} == {FullName, Email, Phone, Address};
    assert {FullName, Email, Phone, Address} + {City} == {FullName, Email, Phone, Address, City};
    assert {FullName, Email, Phone, Address, City} + {State} == {FullName, Email, Phone, Address, City, State};
    assert {FullName, Email, Phone, Address, City, State} + {ZipCode} == ShippingFields;
  }

  /** The four card checks of step 2 build exactly the step-2 errors when paying by card. */
  lemma CardFlags(f: FormData)
    requires f.paymentMethod == "card"
    ensures Flag(Flag(Flag(Flag(map[], f, CardNumber), f, ExpiryDate), f, Cvv), f, CardName) == StepErrors(f, 2)
  {
    assert Missing(f, {}) == map[];
    FlagExtends(f, {}, CardNumber);
    FlagExtends(f, {CardNumber}, ExpiryDate);
    FlagExtends(f, {CardNumber, ExpiryDate}, Cvv);
    FlagExtends(f, {CardNumber, ExpiryDate, Cvv}, CardName);
    assert {} + {CardNumber} == {CardNumber};
    assert {CardNumber} + {ExpiryDate} == {CardNumber, ExpiryDate};
    assert {CardNumber, ExpiryDate} + {Cvv} == {CardNumber, ExpiryDate, Cvv};
    assert {CardNumber, ExpiryDate, Cvv} + {CardName} == CardFields;
  }

  lemma FieldCases(k: Field)
    ensures k in ShippingFields <==> k == FullName || k == Email || k == Phone || k == Address || k == City || k == State || k == ZipCode
    ensures k in CardFields <==> k == CardNumber || k == ExpiryDate || k == Cvv || k == CardName
  {
  }

  /** Step 1 passes iff the seven shipping fields are non-empty; the country is never checked. */
  lemma StepOneSpec(f: FormData, country: string)
    ensures StepErrors(f, 1) == map[] <==>
      f.fullName != "" && f.email != "" && f.phone != "" && f.address != ""
      && f.city != "" && f.state != "" && f.zipCode != ""
    ensures StepErrors(f.(country := country), 1) == StepErrors(f, 1)
  {
    var e := StepErrors(f, 1);
    if e == map[] {
      assert FullName !in e && Email !in e && Phone !in e && Address !in e;
      assert City !in e && State !in e && ZipCode !in e;
    }
    var e' := StepErrors(f.(country := country), 1);
    forall k ensures k in e' <==> k in e {
      FieldCases(k);
    }
    assert e' == e;
  }

  /** Step 2 with a card needs the four card fields; with any other method, and at every other step, it passes. */
  lemma StepTwoSpec(f: FormData, step: int)
    ensures f.paymentMethod == "card" ==>
      (StepErrors(f, 2) == map[] <==> f.cardNumber != "" && f.expiryDate != "" && f.cvv != "" && f.cardName != "")
    ensures f.paymentMethod != "card" ==> StepErrors(f, 2) == map[]
    ensures step != 1 && step != 2 ==> StepErrors(f, step) == map[]
  {
    var e := StepErrors(f, 2);
    if f.paymentMethod == "card" && e == map[] {
      assert CardNumber !in e && ExpiryDate !in e && Cvv !in e && CardName !in e;
    }
  }

  /** Only the shipping fields can fail step 1, only the card fields step 2; every error carries its field's message. */
  lemma StepErrorsShape(f: FormData, step: int)
    ensures forall k :: k in StepErrors(f, step) <==> k in Checked(f, step) && Get(f, k) == ""
    ensures forall k :: k in StepErrors(f, step) ==> StepErrors(f, step)[k] == Message(k) && Message(k) != ""
  {
  }

  /** Submitting re-checks only step 2, so a PayPal order goes out with the shipping fields all empty. */
  lemma SubmitSkipsShipping()
    ensures var f := InitialForm.(paymentMethod := "paypal");
      StepErrors(f, 2) == map[] && StepErrors(f, 1) != map[]
  {
    var f := InitialForm.(paymentMethod := "paypal");
    assert FullName in StepErrors(f, 1);
  }

  /** The `orderData` literal built from the cart, the user and the form. */
  function OrderDataFor(cart: seq<CartItem>, user: Option<User>, f: FormData): (d: OrderData)
    ensures |d.items| == |cart|
    ensures forall i :: 0 <= i < |cart| ==> d.items[i] == ItemRef(cart[i].product.mongoId, cart[i].quantity)
    ensures d.total == Pricing.Summarize(cart).total
    ensures d.paymentMethod == f.paymentMethod
    ensures d.paymentDetails.None?
  {
    OrderData(
      seq(|cart|, i requires 0 <= i < |cart| => ItemRef(cart[i].product.mongoId, cart[i].quantity)),
      if user.Some? then Some(user.value.id) else None,
      FormAddress(f.fullName, f.email, f.phone, f.address, f.city, f.state, f.zipCode, f.country),
      f.paymentMethod,
      Pricing.Summarize(cart).total,
      None)
  }

  /** The page never passes card details, so the payload never carries them, even for card payments. */
  lemma NoCardDetailsSent(cart: seq<CartItem>, user: Option<User>, f: FormData)
    ensures Sanitize(OrderDataFor(cart, user, f)).paymentDetails.None?
    ensures Sanitize(OrderDataFor(cart, user, f)).shippingAddress.country == f.country
  {
  }

  /** What the awaited `orderService.createOrder` did: an order with an optional `_id`, or a failure. */
  datatype Outcome = Created(orderId: Option<string>) | Failed(failure: PostFailure)

  /** `/order-confirmation?orderId=${order._id}`; an absent id prints as "undefined". */
  function ConfirmationPath(orderId: Option<string>): string {
    "/order-confirmation?orderId=" + orderId.GetOr("undefined")
  }

  /** A click the page offers: Previous (only above step 1) or Next (only below step 3), or an edit. */
  datatype UiEvent = ClickPrevious | ClickNext | Edit(field: Field, value: string)

  /** The step and the form after a run of interactions; a button that is not shown cannot be clicked. */
  function Run(step: int, f: FormData, events: seq<UiEvent>): (int, FormData)
    decreases |events|
  {
    if events == [] then (step, f)
    else match events[0]
      case ClickPrevious => Run(if step > 1 then step - 1 else step, f, events[1..])
      case ClickNext => Run(if step < 3 && StepErrors(f, step) == map[] then step + 1 else step, f, events[1..])
      case Edit(k, v) => Run(step, With(f, k, v), events[1..])
  }

  /** Through the rendered buttons the step never leaves 1..3. */
  lemma {:induction false} StepStaysInRange(step: int, f: FormData, events: seq<UiEvent>)
    requires 1 <= step <= 3
    decreases |events|
    ensures 1 <= Run(step, f, events).0 <= 3
  {
    if events != [] {
      match events[0]
      case ClickPrevious => StepStaysInRange(if step > 1 then step - 1 else step, f, events[1..]);
      case ClickNext =>
        StepStaysInRange(if step < 3 && StepErrors(f, step) == map[] then step + 1 else step, f, events[1..]);
      case Edit(k, v) => StepStaysInRange(step, With(f, k, v), events[1..]);
    }
  }

  /** The page's state; `errors` holds only the fields that have a message. */
  class CheckoutForm {
    var currentStep: int
    var formData: FormData
    var errors: map<Field, string>
    var submissionError: Option<string>
    var isSubmitting: bool

    predicate StepInRange()
      reads this
    {
      1 <= currentStep <= 3
    }

    constructor ()
      ensures currentStep == 1 && formData == InitialForm && errors == map[]
      ensures submissionError.None? && !isSubmitting
    {
      currentStep := 1;
      formData := InitialForm;
      errors := map[];
      submissionError := None;
      isSubmitting := false;
    }

    /** validateStep: replaces the errors by the new ones and reports whether there are none. */
    method ValidateStep(step: int) returns (ok: bool)
      modifies this
      ensures errors == StepErrors(formData, step)
      ensures ok <==> errors == map[]
      ensures formData == old(formData) && currentStep == old(currentStep)
      ensures submissionError == old(submissionError) && isSubmitting == old(isSubmitting)
    {
      var e: map<Field, string> := map[];
      if step == 1 {
        e := Flag(e, formData, FullName);
        e := Flag(e, formData, Email);
        e := Flag(e, formData, Phone);
        e := Flag(e, formData, Address);
        e := Flag(e, formData, City);
        e := Flag(e, formData, State);
        e := Flag(e, formData, ZipCode);
        ShippingFlags(formData);
      }
      if step == 2 && formData.paymentMethod == "card" {
        e := Flag(e, formData, CardNumber);
        e := Flag(e, formData, ExpiryDate);
        e := Flag(e, formData, Cvv);
        e := Flag(e, formData, CardName);
        CardFlags(formData);
      }
      if step != 1 && !(step == 2 && formData.paymentMethod == "card") {
        assert Checked(formData, step) == {};
        assert StepErrors(formData, step) == map[];
      }
      errors := e;
      ok := |errors| == 0;
    }

    /** handleInputChange: the field takes the value, and its error (only its own) is cleared. */
    method HandleInputChange(field: Field, value: string)
      modifies this
      ensures formData == With(old(formData), field, value)
      ensures errors == old(errors) - {field}
      ensures currentStep == old(currentStep)
      ensures submissionError == old(submissionError) && isSubmitting == old(isSubmitting)
    {
      formData := With(formData, field, value);
      if field in errors {
        errors := errors - {field};
      }
    }

    /** nextStep: advance only when the current step validates. */
    method NextStep()
      modifies this
      ensures errors == StepErrors(old(formData), old(currentStep))
      ensures currentStep == if errors == map[] then old(currentStep) + 1 else old(currentStep)
      ensures formData == old(formData)
      ensures submissionError == old(submissionError) && isSubmitting == old(isSubmitting)
    {
      var ok := ValidateStep(currentStep);
      if ok {
        currentStep := currentStep + 1;
      }
    }

    /** prevStep: step back, unconditionally. */
    method PrevStep()
      modifies this
      ensures currentStep == old(currentStep) - 1
      ensures formData == old(formData) && errors == old(errors)
      ensures submissionError == old(submissionError) && isSubmitting == old(isSubmitting)
    {
      currentStep := currentStep - 1;
    }

    /** The Previous button, rendered only above step 1. */
    method PressPrevious()
      requires StepInRange() && currentStep > 1
      modifies this
      ensures StepInRange() && currentStep == old(currentStep) - 1
    {
      PrevStep();
    }

    /** The Next button, rendered only below step 3. */
    method PressNext()
      requires StepInRange() && currentStep < 3
      modifies this
      ensures StepInRange()
      ensures currentStep == Run(old(currentStep), old(formData), [ClickNext]).0
    {
      NextStep();
    }

    /**
     * handleSubmit: re-validate step 2 only; if it passes, post the sanitised
     * order, then on success clear the cart and go to the confirmation page, or
     * on failure show the service's message. `posted` is the body sent, if any.
     */
    method HandleSubmit(store: AppContext.AppStore, user: Option<User>, outcome: Outcome)
      returns (posted: Option<Sanitized>, navigateTo: Option<string>)
      modifies this, store
      ensures errors == StepErrors(old(formData), 2)
      ensures errors != map[] ==>
        posted.None? && navigateTo.None? && store.state == old(store.state)
        && submissionError == old(submissionError) && isSubmitting == old(isSubmitting)
      ensures errors == map[] ==>
        && posted == Some(Sanitize(OrderDataFor(old(store.state.cartItems), user, old(formData))))
        && !isSubmitting
        && (outcome.Created? ==>
              store.state == old(store.state).(cartItems := [])
              && navigateTo == Some(ConfirmationPath(outcome.orderId))
              && submissionError.None?)
        && (outcome.Failed? ==>
              store.state == old(store.state) && navigateTo.None?
              && submissionError == Some(FailureMessage(outcome.failure)))
      ensures formData == old(formData) && currentStep == old(currentStep)
    {
      var ok := ValidateStep(2);
      if !ok {
        return None, None;
      }
      isSubmitting := true;
      submissionError := None;
      var data := OrderDataFor(store.state.cartItems, user, formData);
      posted := Some(Sanitize(data));
      match outcome {
        case Created(id) =>
          store.Dispatch(AppContext.ClearCart);
          navigateTo := Some(ConfirmationPath(id));
        case Failed(failure) =>
          submissionError := Some(FailureMessage(failure));
          navigateTo := None;
      }
      isSubmitting := false;
    }
  }
}
