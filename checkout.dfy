/** The checkout page: its form checks, shipping-rate lookup and selection, the order it posts and the payment hand-off. */
module Checkout {
  import opened Wrappers
  import opened Text
  import opened CartStore
  import Validation

  // ------------------------------------------------------------ the form

  datatype CheckoutForm = CheckoutForm(
    firstName: string, lastName: string, email: string, phone: string, address: string,
    city: string, state: string, zipCode: string, country: string, saveInfo: bool)

  const InitialForm: CheckoutForm := CheckoutForm("", "", "", "", "", "", "", "", "IN", false)

  /** A courier rate as the page keeps it: `charges` is `parseFloat(rate.rate)`. */
  datatype Rate = Rate(courierId: int, courierName: string, rate: real, charges: real)

  /** A rate as the rates endpoint returns it. */
  datatype RawRate = RawRate(courierId: int, courierName: string, rate: real)

  /** The text fields `handleInputChange` can set by name, and the one check box. */
  datatype TextField = FirstName | LastName | Email | Phone | Address | City | State | ZipCode | Country

  datatype FieldEdit = EditText(field: TextField, value: string) | EditSaveInfo(checked: bool)

  /** The keys of the `errors` object: a field's name, 'shippingMethod' and 'submit'. */
  datatype ErrorKey = FieldKey(field: TextField) | SaveInfoKey | ShippingMethodKey | SubmitKey

  function EditKey(e: FieldEdit): ErrorKey {
    match e
    case EditText(f, _) => FieldKey(f)
    case EditSaveInfo(_) => SaveInfoKey
  }

  function TextOf(form: CheckoutForm, f: TextField): string {
    match f
    case FirstName => form.firstName
    case LastName => form.lastName
    case Email => form.email
    case Phone => form.phone
    case Address => form.address
    case City => form.city
    case State => form.state
    case ZipCode => form.zipCode
    case Country => form.country
  }

  /** `{ ...prev, [name]: type === 'checkbox' ? checked : value }`. */
  function ApplyFieldEdit(form: CheckoutForm, e: FieldEdit): (r: CheckoutForm)
    ensures e.EditText? ==> TextOf(r, e.field) == e.value && r.saveInfo == form.saveInfo
    ensures e.EditText? ==> forall f :: f != e.field ==> TextOf(r, f) == TextOf(form, f)
    ensures e.EditSaveInfo? ==> r == form.(saveInfo := e.checked)
  {
    match e
    case EditSaveInfo(c) => form.(saveInfo := c)
    case EditText(f, v) =>
      match f
      case FirstName => form.(firstName := v)
      case LastName => form.(lastName := v)
      case Email => form.(email := v)
      case Phone => form.(phone := v)
      case Address => form.(address := v)
      case City => form.(city := v)
      case State => form.(state := v)
      case ZipCode => form.(zipCode := v)
      case Country => form.(country := v)
  }

  /** The signed-in user as the page reads it; a missing field is "". */
  datatype SignedInUser = SignedInUser(email: string, firstName: string, lastName: string, displayName: Option<string>)

  /** `displayName?.split(' ')[k] || ''`. */
  function NamePart(displayName: Option<string>, k: nat): (r: string)
    ensures displayName.None? ==> r == ""
    ensures displayName.Some? && k < |Split(displayName.value, ' ')| ==> r == Split(displayName.value, ' ')[k]
    ensures ' ' !in r
  {
    if displayName.None? then ""
    else
      var parts := Split(displayName.value, ' ');
      if k < |parts| then parts[k] else ""
  }

  /** The prefill on mount: the user's email and names, the first and second words of the display name standing in for missing names. */
  function Prefill(form: CheckoutForm, user: Option<SignedInUser>): (r: CheckoutForm)
    ensures user.None? ==> r == form
    ensures user.Some? ==> r == form.(email := user.value.email, firstName := r.firstName, lastName := r.lastName)
    ensures user.Some? && user.value.firstName != "" ==> r.firstName == user.value.firstName
    ensures user.Some? && user.value.firstName == "" ==> r.firstName == NamePart(user.value.displayName, 0)
    ensures user.Some? && user.value.lastName != "" ==> r.lastName == user.value.lastName
    ensures user.Some? && user.value.lastName == "" ==> r.lastName == NamePart(user.value.displayName, 1)
  {
    if user.None? then form
    else
      var u := user.value;
      form.(email := u.email,
            firstName := if u.firstName != "" then u.firstName else NamePart(u.displayName, 0),
            lastName := if u.lastName != "" then u.lastName else NamePart(u.displayName, 1))
  }

  /** A display name of two words fills both names. */
  lemma {:induction false} PrefillSplitsDisplayName(form: CheckoutForm, email: string, first: string, last: string)
    requires first != "" && last != "" && ' ' !in first && ' ' !in last
    ensures var r := Prefill(form, Some(SignedInUser(email, "", "", Some(first + " " + last))));
            r.firstName == first && r.lastName == last && r.email == email
  {
    SplitWithoutSeparator(last, ' ');
    SplitAtFirstSeparator(first, last, ' ');
    assert first + " " + last == first + [' '] + last;
  }

  // ------------------------------------------------------------ the order

  datatype PostalAddress = PostalAddress(
    firstName: string, lastName: string, address1: string, city: string, state: string, postcode: string, country: string)

  datatype LineItem = LineItem(productId: int, quantity: int, price: real)

  datatype ShippingLine = ShippingLine(methodId: string, methodTitle: string, total: real)

  /** `orderData`; prices and totals are sent as the decimal strings of these numbers. */
  datatype OrderPayload = OrderPayload(
    paymentMethod: string, paymentMethodTitle: string, setPaid: bool,
    billing: PostalAddress, email: string, phone: string, shipping: PostalAddress,
    lineItems: seq<LineItem>, shippingLines: seq<ShippingLine>)

  function AddressOf(form: CheckoutForm): PostalAddress {
    PostalAddress(form.firstName, form.lastName, form.address, form.city, form.state, form.zipCode, form.country)
  }

  /** `orderData` for a cart and the selected rate. */
  function BuildOrderPayload(form: CheckoutForm, cart: seq<CartLine>, selected: Rate): (p: OrderPayload)
    ensures p.billing == p.shipping == AddressOf(form)
    ensures p.email == form.email && p.phone == form.phone
    ensures |p.lineItems| == |cart|
    ensures forall i :: 0 <= i < |cart| ==> p.lineItems[i] == LineItem(cart[i].id, cart[i].quantity, cart[i].price)
    ensures p.shippingLines == [ShippingLine("shiprocket", if selected.courierName != "" then selected.courierName else "Shiprocket", selected.charges)]
    ensures p.paymentMethod == "razorpay" && p.paymentMethodTitle == "Razorpay" && !p.setPaid
  {
    OrderPayload(
      "razorpay", "Razorpay", false,
      AddressOf(form), form.email, form.phone, AddressOf(form),
      seq(|cart|, i requires 0 <= i < |cart| => LineItem(cart[i].id, cart[i].quantity, cart[i].price)),
      [ShippingLine("shiprocket", if selected.courierName != "" then selected.courierName else "Shiprocket", selected.charges)])
  }

  /** What the order endpoint answers on success. */
  datatype OrderCreated = OrderCreated(id: int, razorpayOrderId: Option<string>)

  /** The options the payment widget opens with; `amount` is the total times 100, not rounded. */
  datatype PaymentWidget = PaymentWidget(amount: real, currency: string, description: string, orderId: string,
                                         prefillName: string, prefillEmail: string, prefillContact: string)

  /** The rates request: the postcode, and for each cart line its weight (there is none, so 0.5), quantity and price. */
  datatype RateItem = RateItem(weight: real, quantity: int, price: real)

  datatype RateRequest = RateRequest(deliveryPostcode: string, items: seq<RateItem>)

  function RateRequestFor(zip: string, cart: seq<CartLine>): (r: RateRequest)
    ensures r.deliveryPostcode == zip && |r.items| == |cart|
    ensures forall i :: 0 <= i < |cart| ==> r.items[i] == RateItem(0.5, cart[i].quantity, cart[i].price)
  {
    RateRequest(zip, seq(|cart|, i requires 0 <= i < |cart| => RateItem(0.5, cart[i].quantity, cart[i].price)))
  }

  function MapRates(raw: seq<RawRate>): (r: seq<Rate>)
    ensures |r| == |raw|
    ensures forall i :: 0 <= i < |raw| ==>
      r[i] == Rate(raw[i].courierId, raw[i].courierName, raw[i].rate, raw[i].rate)
  {
    seq(|raw|, i requires 0 <= i < |raw| => Rate(raw[i].courierId, raw[i].courierName, raw[i].rate, raw[i].rate))
  }

  /** The Indian postal code shape: six digits, the first not 0. */
  predicate IndianPin(zip: string) {
    |zip| == 6 && AllDigits(zip) && zip[0] != '0'
  }

  const ErrFirstName: string := "First name is required"
  const ErrLastName: string := "Last name is required"
  const ErrEmail: string := "A valid email is required"
  const ErrPhone: string := "A valid phone number is required"
  const ErrAddress: string := "Address is required"
  const ErrCity: string := "City is required"
  const ErrState: string := "State is required"
  const ErrZip: string := "A valid ZIP code is required"
  const ErrShipping: string := "Select a shipping method"
  const ErrNoRazorpayId: string := "Razorpay Order ID not received."
  const ErrCreateOrder: string := "Failed to create order"

  /** The predicate each key of the error map stands for, given whether the zip code was accepted. */
  predicate FieldsOk(form: CheckoutForm, selected: Option<Rate>, zipAccepted: bool) {
    && form.firstName != "" && form.lastName != ""
    && form.email != "" && Validation.ValidateEmail(form.email)
    && (form.phone == "" || Validation.ValidatePhone(form.phone))
    && form.address != "" && form.city != "" && form.state != ""
    && form.zipCode != "" && zipAccepted
    && selected.Some?
  }

  /** The keys `validateForm` can report. */
  const CheckedKeys: set<ErrorKey> := {
    FieldKey(FirstName), FieldKey(LastName), FieldKey(Email), FieldKey(Phone), FieldKey(Address),
    FieldKey(City), FieldKey(State), FieldKey(ZipCode), ShippingMethodKey}

  /** Whether the check behind key `k` fails; `zipAccepted` is the zip code test's verdict. */
  predicate Fails(form: CheckoutForm, selected: Option<Rate>, zipAccepted: bool, k: ErrorKey) {
    match k
    case FieldKey(FirstName) => form.firstName == ""
    case FieldKey(LastName) => form.lastName == ""
    case FieldKey(Email) => form.email == "" || !Validation.ValidateEmail(form.email)
    case FieldKey(Phone) => form.phone != "" && !Validation.ValidatePhone(form.phone)
    case FieldKey(Address) => form.address == ""
    case FieldKey(City) => form.city == ""
    case FieldKey(State) => form.state == ""
    case FieldKey(ZipCode) => form.zipCode == "" || !zipAccepted
    case FieldKey(Country) => false
    case ShippingMethodKey => selected.None?
    case SaveInfoKey => false
    case SubmitKey => false
  }

  /** The message `validateForm` stores under each key it checks. */
  function ErrorMessage(k: ErrorKey): string {
    match k
    case FieldKey(FirstName) => ErrFirstName
    case FieldKey(LastName) => ErrLastName
    case FieldKey(Email) => ErrEmail
    case FieldKey(Phone) => ErrPhone
    case FieldKey(Address) => ErrAddress
    case FieldKey(City) => ErrCity
    case FieldKey(State) => ErrState
    case FieldKey(ZipCode) => ErrZip
    case ShippingMethodKey => ErrShipping
    case _ => ""
  }

  /** `newErrors` as `validateForm` builds it: one entry, with that field's message, for every failing check. */
  function CollectErrors(form: CheckoutForm, selected: Option<Rate>, zipAccepted: bool): map<ErrorKey, string> {
    map k | k in CheckedKeys && Fails(form, selected, zipAccepted, k) :: ErrorMessage(k)
  }

  /** The error map holds exactly the failing checks, each with its message. */
  lemma {:induction false} CollectErrorsKeys(form: CheckoutForm, selected: Option<Rate>, zipAccepted: bool)
    ensures var e := CollectErrors(form, selected, zipAccepted);
            && (forall k :: k in e <==> Fails(form, selected, zipAccepted, k))
            && (forall k :: k in e ==> e[k] == ErrorMessage(k))
  {
    assert forall k :: Fails(form, selected, zipAccepted, k) ==> k in CheckedKeys;
  }

  /** The error map is empty exactly when every check passes. */
  lemma {:induction false} CollectErrorsEmptyIff(form: CheckoutForm, selected: Option<Rate>, zipAccepted: bool)
    ensures CollectErrors(form, selected, zipAccepted) == map[] <==> FieldsOk(form, selected, zipAccepted)
  {
    var e := CollectErrors(form, selected, zipAccepted);
    if FieldsOk(form, selected, zipAccepted) {
      NothingFails(form, selected, zipAccepted);
      assert e.Keys == {};
    } else {
      var k := FirstFailure(form, selected, zipAccepted);
      assert k in e;
    }
  }

  lemma {:induction false} NothingFails(form: CheckoutForm, selected: Option<Rate>, zipAccepted: bool)
    requires FieldsOk(form, selected, zipAccepted)
    ensures forall k :: !Fails(form, selected, zipAccepted, k)
  {
  }

  /** The first check, in `validateForm`'s order, that fails when not all of them pass. */
  function FirstFailure(form: CheckoutForm, selected: Option<Rate>, zipAccepted: bool): (k: ErrorKey)
    requires !FieldsOk(form, selected, zipAccepted)
    ensures k in CheckedKeys && Fails(form, selected, zipAccepted, k)
  {
    if form.firstName == "" then FieldKey(FirstName)
    else if form.lastName == "" then FieldKey(LastName)
    else if form.email == "" || !Validation.ValidateEmail(form.email) then FieldKey(Email)
    else if form.phone != "" && !Validation.ValidatePhone(form.phone) then FieldKey(Phone)
    else if form.address == "" then FieldKey(Address)
    else if form.city == "" then FieldKey(City)
    else if form.state == "" then FieldKey(State)
    else if form.zipCode == "" || !zipAccepted then FieldKey(ZipCode)
    else ShippingMethodKey
  }

  class CheckoutPage {
    var cart: seq<CartLine>
    var form: CheckoutForm
    var errors: map<ErrorKey, string>
    var rates: seq<Rate>
    var selected: Option<Rate>
    var loading: bool

    constructor(cart: seq<CartLine>)
      ensures this.cart == cart && form == InitialForm && errors == map[]
      ensures rates == [] && selected.None? && !loading
    {
      this.cart := cart;
      form := InitialForm;
      errors := map[];
      rates := [];
      selected := None;
      loading := false;
    }

    /** `validateForm()` as written: the zip code is checked with the country 'IN', which the zip validator has no pattern for. */
    method ValidateForm() returns (ok: bool)
      modifies this
      ensures ok <==> FieldsOk(old(form), old(selected), Validation.ValidateZipCode(old(form).zipCode, "IN"))
      ensures errors == CollectErrors(old(form), old(selected), Validation.ValidateZipCode(old(form).zipCode, "IN"))
      ensures FieldKey(ZipCode) in errors && errors[FieldKey(ZipCode)] == ErrZip
      ensures !ok
      ensures cart == old(cart) && form == old(form) && rates == old(rates) && selected == old(selected) && loading == old(loading)
    {
      Validation.ZipUnknownCountryRejects(form.zipCode, "IN");
      CollectErrorsKeys(form, selected, Validation.ValidateZipCode(form.zipCode, "IN"));
      CollectErrorsEmptyIff(form, selected, Validation.ValidateZipCode(form.zipCode, "IN"));
      var e := CollectErrors(form, selected, Validation.ValidateZipCode(form.zipCode, "IN"));
      errors := e;
      ok := e == map[];
    }

    /** `validateForm()` with the zip code checked as an Indian postal code. */
    method CorrectedValidateForm() returns (ok: bool)
      modifies this
      ensures ok <==> FieldsOk(old(form), old(selected), IndianPin(old(form).zipCode))
      ensures errors == CollectErrors(old(form), old(selected), IndianPin(old(form).zipCode))
      ensures ok <==> errors == map[]
      ensures cart == old(cart) && form == old(form) && rates == old(rates) && selected == old(selected) && loading == old(loading)
    {
      CollectErrorsEmptyIff(form, selected, IndianPin(form.zipCode));
      var e := CollectErrors(form, selected, IndianPin(form.zipCode));
      errors := e;
      ok := e == map[];
    }

    /** `handleInputChange(e)`: sets the field, and clears that field's error if it was showing one. */
    method HandleInputChange(edit: FieldEdit)
      modifies this
      ensures form == ApplyFieldEdit(old(form), edit)
      ensures var key := EditKey(edit);
              errors == if key in old(errors) && old(errors)[key] != "" then old(errors)[key := ""] else old(errors)
      ensures cart == old(cart) && rates == old(rates) && selected == old(selected) && loading == old(loading)
    {
      form := ApplyFieldEdit(form, edit);
      var key := EditKey(edit);
      if key in errors && errors[key] != "" {
        errors := errors[key := ""];
      }
    }

    /** `fetchRates()`: nothing without a zip code or with an empty cart; otherwise asks for rates and selects the first,
      * or shows none when there are none or the call fails. Returns the request sent. */
    method FetchRates(getRates: RateRequest -> Result<seq<RawRate>, string>) returns (sent: Option<RateRequest>)
      modifies this
      ensures old(form).zipCode == "" || |old(cart)| == 0 ==> sent.None? && rates == old(rates) && selected == old(selected)
      ensures old(form).zipCode != "" && |old(cart)| > 0 ==>
        && sent == Some(RateRequestFor(old(form).zipCode, old(cart)))
        && match getRates(sent.value)
           case Ok(raw) => rates == MapRates(raw) && selected == (if |raw| > 0 then Some(rates[0]) else None)
           case Err(_) => rates == [] && selected.None?
      ensures cart == old(cart) && form == old(form) && errors == old(errors) && loading == old(loading)
    {
      if form.zipCode == "" || |cart| == 0 {
        sent := None;
        return;
      }
      var request := RateRequestFor(form.zipCode, cart);
      sent := Some(request);
      var answer := getRates(request);
      if answer.Ok? && |answer.value| > 0 {
        var mapped := MapRates(answer.value);
        rates := mapped;
        selected := Some(mapped[0]);
      } else {
        rates := [];
        selected := None;
      }
    }

    /** Choosing a courier with its radio button. */
    method SelectRate(r: Rate)
      modifies this
      ensures selected == Some(r)
      ensures cart == old(cart) && form == old(form) && errors == old(errors) && rates == old(rates) && loading == old(loading)
    {
      selected := Some(r);
    }

    /** `handleSubmit`, with the corrected form check: a failing check posts nothing; otherwise posts the order and opens
      * the payment widget for the total, or records the failure under 'submit'. Returns what was posted and opened. */
    method HandleSubmit(createOrder: OrderPayload -> Result<OrderCreated, Option<string>>)
      returns (posted: Option<OrderPayload>, widget: Option<PaymentWidget>)
      modifies this
      ensures !FieldsOk(old(form), old(selected), IndianPin(old(form).zipCode)) ==>
        posted.None? && widget.None? && errors == CollectErrors(old(form), old(selected), IndianPin(old(form).zipCode))
      ensures widget.Some? ==> errors == map[]
      ensures posted.Some? ==>
        && old(selected).Some?
        && posted.value == BuildOrderPayload(old(form), old(cart), old(selected).value)
        && var total := Total(old(cart)) + old(selected).value.charges;
           match createOrder(posted.value)
           case Err(msg) =>
             widget.None? && errors == map[SubmitKey := if msg.Some? && msg.value != "" then msg.value else ErrCreateOrder]
           case Ok(created) =>
             if created.razorpayOrderId.Some? && created.razorpayOrderId.value != "" then
               widget == Some(PaymentWidget(total * 100.0, "INR", "Order #" + IntToString(created.id),
                                            created.razorpayOrderId.value,
                                            old(form).firstName + " " + old(form).lastName, old(form).email, old(form).phone))
             else widget.None? && errors == map[SubmitKey := ErrNoRazorpayId]
      ensures posted.None? ==> widget.None?
      ensures FieldsOk(old(form), old(selected), IndianPin(old(form).zipCode)) ==> posted.Some?
      ensures cart == old(cart) && form == old(form) && rates == old(rates) && selected == old(selected)
      ensures loading == (old(loading) && posted.None?)
    {
      posted := None;
      widget := None;
      var ok := CorrectedValidateForm();
      if !ok {
        return;
      }
      loading := true;
      var rate := selected.value;
      var total := Total(cart) + rate.charges;
      var payload := BuildOrderPayload(form, cart, rate);
      posted := Some(payload);
      var answer := createOrder(payload);
      match answer {
        case Err(msg) =>
          errors := map[SubmitKey := if msg.Some? && msg.value != "" then msg.value else ErrCreateOrder];
        case Ok(created) =>
          if created.razorpayOrderId.Some? && created.razorpayOrderId.value != "" {
            widget := Some(PaymentWidget(total * 100.0, "INR", "Order #" + IntToString(created.id),
                                         created.razorpayOrderId.value,
                                         form.firstName + " " + form.lastName, form.email, form.phone));
          } else {
            errors := map[SubmitKey := ErrNoRazorpayId];
          }
      }
      loading := false;
    }
  }

  /** The payment widget's success handler: empties the cart and returns the order-success address. */
  method OnPaymentSuccess(store: CartStore, orderId: int, paymentId: string) returns (redirect: string)
    modifies store
    ensures store.Lines() == []
    ensures redirect == "/order-success?order=" + IntToString(orderId) + "&payment_id=" + paymentId
  {
    var _ := store.ClearCart();
    redirect := "/order-success?order=" + IntToString(orderId) + "&payment_id=" + paymentId;
  }

  /** No valid form exists as written: the zip check for 'IN' always fails. */
  lemma {:induction false} ValidateFormNeverPasses(form: CheckoutForm, selected: Option<Rate>)
    ensures !FieldsOk(form, selected, Validation.ValidateZipCode(form.zipCode, "IN"))
  {
    Validation.ZipUnknownCountryRejects(form.zipCode, "IN");
  }

  /** The corrected check accepts Indian postal codes and refuses other shapes. */
  lemma {:induction false} IndianPinExamples()
    ensures IndianPin("700016") && IndianPin("110001")
    ensures !IndianPin("070001") && !IndianPin("12345") && !IndianPin("1100O1")
  {
    assert !IsDigit("1100O1"[4]);
  }
}
