/** The payment webhook: checks the signature, and for a captured payment of a shop order marks the order as
  * processing and books its shipment with the courier service. */
module VerifyPayment {
  import opened Wrappers
  import opened Text

  datatype Notes = Notes(wooOrderId: Option<int>)

  /** `payload.payment.entity`: the payment id and its notes. */
  datatype PaymentEntity = PaymentEntity(id: string, notes: Option<Notes>)

  datatype WebhookBody = WebhookBody(event: string, payment: Option<PaymentEntity>)

  datatype Env = Env(webhookSecret: Option<string>, shiprocketEmail: Option<string>, shiprocketPassword: Option<string>,
                     pickupName: Option<string>, channelId: Option<string>)

  datatype Billing = Billing(firstName: string, lastName: string, address1: string, address2: string, city: string,
                             postcode: string, state: string, country: string, email: string, phone: string)

  /** A line of the shop order; `total` and `weight` are `None` where `parseFloat` gives NaN. */
  datatype WcLineItem = WcLineItem(name: string, sku: string, productId: int, quantity: int, price: real,
                                   total: Option<real>, weight: Option<real>)

  /** The shop order as fetched back; the totals are `None` where `parseFloat` gives NaN. */
  datatype WcOrderData = WcOrderData(id: int, dateCreated: string, billing: Billing, lineItems: seq<WcLineItem>,
                                     shippingTotal: Option<real>, discountTotal: Option<real>)

  datatype LoginAnswer = LoginAnswer(ok: bool, token: Option<string>)

  datatype ShipmentItem = ShipmentItem(name: string, sku: string, units: int, sellingPrice: real, hsn: int)

  datatype ShipmentPayload = ShipmentPayload(
    orderId: string, orderDate: string, pickupLocation: Option<string>, channelId: Option<string>,
    billingCustomerName: string, billing: Billing, shippingIsBilling: bool, items: seq<ShipmentItem>,
    paymentMethod: string, shippingCharges: real, totalDiscount: real, subTotal: real,
    length: int, breadth: int, height: int, weight: real)

  /** The downstream calls, in the order they are made. */
  datatype Call =
    | UpdateOrder(orderId: int, status: string, transactionId: string)
    | FetchOrder(orderId: int)
    | Login(email: Option<string>, password: Option<string>)
    | CreateShipment(payload: ShipmentPayload, token: string)

  datatype ResponseBody = Message(message: string) | StatusOk | Crashed

  datatype Response = Response(status: int, body: ResponseBody)

  const MethodNotAllowed: Response := Response(405, Message("Method Not Allowed"))
  const NoSecret: Response := Response(500, Message("Webhook secret is not configured."))
  const BadSignature: Response := Response(400, Message("Invalid signature"))
  const Acknowledged: Response := Response(200, StatusOk)
  /** An error thrown outside the handler's `try`, which the framework answers with 500. */
  const Unhandled: Response := Response(500, Crashed)
  const Captured: string := "payment.captured"
  const Hsn: int := 49011010

  /** `parseFloat(x) || d`: NaN and 0 give way to the default. */
  function NumberOr(x: Option<real>, d: real): (r: real)
    ensures x.Some? && x.value != 0.0 ==> r == x.value
    ensures x.None? || x == Some(0.0) ==> r == d
  {
    if x.Some? && x.value != 0.0 then x.value else d
  }

  /** `s.slice(0, n)`. */
  function Slice(s: string, n: nat): (r: string)
    ensures |r| == if |s| < n then |s| else n
    ensures r == s[..|r|]
  {
    if |s| <= n then s else s[..n]
  }

  function ShipmentWeight(items: seq<WcLineItem>): real {
    if items == [] then 0.0
    else ShipmentWeight(items[..|items| - 1]) + NumberOr(items[|items| - 1].weight, 0.5) * items[|items| - 1].quantity as real
  }

  function SubTotal(items: seq<WcLineItem>): real {
    if items == [] then 0.0 else SubTotal(items[..|items| - 1]) + NumberOr(items[|items| - 1].total, 0.0)
  }

  function ShipmentItemOf(item: WcLineItem): (s: ShipmentItem)
    ensures s.units == item.quantity && s.sellingPrice == item.price && s.name == item.name && s.hsn == Hsn
    ensures item.sku != "" ==> s.sku == item.sku
    ensures item.sku == "" ==> s.sku == "prod-" + IntToString(item.productId)
  {
    ShipmentItem(item.name, if item.sku != "" then item.sku else "prod-" + IntToString(item.productId),
                 item.quantity, item.price, Hsn)
  }

  /** `shiprocketOrderPayload`. */
  function ShipmentPayloadOf(order: WcOrderData, env: Env): ShipmentPayload
  {
    ShipmentPayload(
      IntToString(order.id), Slice(order.dateCreated, 10), env.pickupName, env.channelId,
      Trim(order.billing.firstName + " " + order.billing.lastName), order.billing, true,
      seq(|order.lineItems|, i requires 0 <= i < |order.lineItems| => ShipmentItemOf(order.lineItems[i])),
      "Prepaid", NumberOr(order.shippingTotal, 0.0), NumberOr(order.discountTotal, 0.0), SubTotal(order.lineItems),
      10, 10, 10, ShipmentWeight(order.lineItems))
  }

  /** `if (wooCommerceOrderId)`. */
  predicate Truthy(id: Option<int>) { id.Some? && id.value != 0 }

  /** Whether the signature header equals the HMAC-SHA256 hex digest of the serialized body under the secret. */
  predicate SignatureMatches(signature: Option<string>, body: WebhookBody, secret: string,
                             hmac: (string, string) -> string, serialize: WebhookBody -> string)
  {
    signature == Some(hmac(secret, serialize(body)))
  }

  /** The handler. `hmac` and `serialize` stand for HMAC-SHA256 and `JSON.stringify`; `update`, `fetchOrder` and
    * `login` for the remote calls (an `Err` is a thrown error). `fetchOrder` answers `Ok(None)` when the JSON it
    * gets back is not an order record, such as WooCommerce's error body for a 404 or 401: the response status is
    * never checked. Returns the response and the calls made. */
  method Handle(httpMethod: string, signature: Option<string>, body: WebhookBody, env: Env,
                hmac: (string, string) -> string, serialize: WebhookBody -> string,
                update: Call -> Result<(), string>,
                fetchOrder: int -> Result<Option<WcOrderData>, string>,
                login: Call -> Result<LoginAnswer, string>)
    returns (resp: Response, calls: seq<Call>)
    ensures httpMethod != "POST" ==> resp == MethodNotAllowed && calls == []
    ensures httpMethod == "POST" && (env.webhookSecret.None? || env.webhookSecret.value == "") ==> resp == NoSecret && calls == []
    ensures httpMethod == "POST" && env.webhookSecret.Some? && env.webhookSecret.value != ""
            && !SignatureMatches(signature, body, env.webhookSecret.value, hmac, serialize) ==>
      resp == BadSignature && calls == []
    ensures httpMethod == "POST" && env.webhookSecret.Some? && env.webhookSecret.value != ""
            && SignatureMatches(signature, body, env.webhookSecret.value, hmac, serialize) ==>
      resp == (if body.event == Captured && (body.payment.None? || body.payment.value.notes.None?) then Unhandled
               else Acknowledged)
    ensures resp.status == 200 ==> SignatureMatches(signature, body, env.webhookSecret.value, hmac, serialize)
    ensures calls != [] <==>
      resp == Acknowledged && body.event == Captured && Truthy(body.payment.value.notes.value.wooOrderId)
    ensures calls != [] ==>
      var payment := body.payment.value;
      var id := payment.notes.value.wooOrderId.value;
      calls == CaptureCalls(id, payment.id, env, update(UpdateOrder(id, "processing", payment.id)), fetchOrder(id),
                            login(Login(env.shiprocketEmail, env.shiprocketPassword)))
  {
    calls := [];
    if httpMethod != "POST" {
      resp := MethodNotAllowed;
      return;
    }
    if env.webhookSecret.None? || env.webhookSecret.value == "" {
      resp := NoSecret;
      return;
    }
    var digest := hmac(env.webhookSecret.value, serialize(body));
    if signature != Some(digest) {
      resp := BadSignature;
      return;
    }
    if body.event == Captured {
      if body.payment.None? || body.payment.value.notes.None? {
        resp := Unhandled;
        return;
      }
      var payment := body.payment.value;
      var id := payment.notes.value.wooOrderId;
      if Truthy(id) {
        calls := ProcessCapture(id.value, payment.id, env, update, fetchOrder, login);
      }
    }
    resp := Acknowledged;
  }

  /** The Shiprocket login answered with a token. */
  predicate TokenGranted(auth: Result<LoginAnswer, string>) {
    auth.Ok? && auth.value.ok && auth.value.token.Some? && auth.value.token.value != ""
  }

  /** The calls the `try` block makes for a captured payment, given how each remote call answers: the order update,
    * then fetching the order, then the login, then the shipment, stopping after the first that throws. An answer
    * that is not an order still reaches the login; reading its `line_items` then throws. */
  function CaptureCalls(id: int, paymentId: string, env: Env, updated: Result<(), string>,
                        order: Result<Option<WcOrderData>, string>, auth: Result<LoginAnswer, string>): (r: seq<Call>)
    ensures |r| == 4 <==> updated.Ok? && order.Ok? && order.value.Some? && TokenGranted(auth)
    ensures |r| == 4 ==> r[3].CreateShipment?
    ensures updated.Ok? && order == Ok(None) ==>
      r == [UpdateOrder(id, "processing", paymentId), FetchOrder(id), Login(env.shiprocketEmail, env.shiprocketPassword)]
  {
    var updateCall := UpdateOrder(id, "processing", paymentId);
    if updated.Err? then [updateCall]
    else if order.Err? then [updateCall, FetchOrder(id)]
    else if !TokenGranted(auth) || order.value.None? then
      [updateCall, FetchOrder(id), Login(env.shiprocketEmail, env.shiprocketPassword)]
    else [updateCall, FetchOrder(id), Login(env.shiprocketEmail, env.shiprocketPassword),
          CreateShipment(ShipmentPayloadOf(order.value.value, env), auth.value.token.value)]
  }

  /** The trace always starts with the order update, and each further call is made exactly when the one before it
    * did not throw; the shipment needs both an order record and a token, and carries the order's payload and the
    * login's token. */
  lemma {:induction false} CaptureStopsAtFirstFailure(id: int, paymentId: string, env: Env, updated: Result<(), string>,
                                                      order: Result<Option<WcOrderData>, string>,
                                                      auth: Result<LoginAnswer, string>)
    ensures var c := CaptureCalls(id, paymentId, env, updated, order, auth);
            && 1 <= |c| <= 4
            && c[0] == UpdateOrder(id, "processing", paymentId)
            && (|c| > 1 <==> updated.Ok?)
            && (|c| > 1 ==> c[1] == FetchOrder(id) && (|c| > 2 <==> order.Ok?))
            && (|c| > 2 ==> c[2] == Login(env.shiprocketEmail, env.shiprocketPassword)
                            && (|c| > 3 <==> order.value.Some? && TokenGranted(auth)))
            && (|c| > 3 ==> c[3] == CreateShipment(ShipmentPayloadOf(order.value.value, env), auth.value.token.value))
  {
  }

  /** The `try` block for a captured payment: each step runs only if the one before did not throw. */
  method ProcessCapture(id: int, paymentId: string, env: Env,
                        update: Call -> Result<(), string>,
                        fetchOrder: int -> Result<Option<WcOrderData>, string>,
                        login: Call -> Result<LoginAnswer, string>)
    returns (calls: seq<Call>)
    ensures calls == CaptureCalls(id, paymentId, env, update(UpdateOrder(id, "processing", paymentId)), fetchOrder(id),
                                  login(Login(env.shiprocketEmail, env.shiprocketPassword)))
  {
    var updateCall := UpdateOrder(id, "processing", paymentId);
    if update(updateCall).Err? {
      calls := [updateCall];
      return;
    }
    var order := fetchOrder(id);
    if order.Err? {
      calls := [updateCall, FetchOrder(id)];
      return;
    }
    var loginCall := Login(env.shiprocketEmail, env.shiprocketPassword);
    var auth := login(loginCall);
    if !TokenGranted(auth) {
      calls := [updateCall, FetchOrder(id), loginCall];
      return;
    }
    if order.value.None? {
      calls := [updateCall, FetchOrder(id), loginCall];
      return;
    }
    var record := order.value.value;
    calls := [updateCall, FetchOrder(id), loginCall, CreateShipment(ShipmentPayloadOf(record, env), auth.value.token.value)];
  }

  // ------------------------------------------------------------ the payload's totals

  /** Lines without a usable weight weigh half a kilogram per unit. */
  lemma {:induction false} UnweighedLinesCountHalfKilo(items: seq<WcLineItem>)
    requires forall i :: 0 <= i < |items| ==> items[i].weight.None?
    ensures ShipmentWeight(items) == 0.5 * Units(items) as real
    decreases |items|
  {
    if items != [] {
      UnweighedLinesCountHalfKilo(items[..|items| - 1]);
    }
  }

  /** With non-negative quantities and weights the parcel weight is non-negative, and
    * positive once every line has at least one unit. */
  lemma {:induction false} ShipmentWeightNonNegative(items: seq<WcLineItem>)
    requires forall i :: 0 <= i < |items| ==> items[i].quantity >= 0 && (items[i].weight.Some? ==> items[i].weight.value >= 0.0)
    ensures ShipmentWeight(items) >= 0.0
    ensures items != [] && (forall i :: 0 <= i < |items| ==> items[i].quantity >= 1) ==> ShipmentWeight(items) > 0.0
    decreases |items|
  {
    if items != [] {
      ShipmentWeightNonNegative(items[..|items| - 1]);
      var last := items[|items| - 1];
      var w := NumberOr(last.weight, 0.5);
      assert w > 0.0;
      assert w * last.quantity as real >= 0.0;
      if last.quantity >= 1 {
        assert w * last.quantity as real >= w;
      }
    }
  }

  function Units(items: seq<WcLineItem>): int {
    if items == [] then 0 else Units(items[..|items| - 1]) + items[|items| - 1].quantity
  }

  /** Both totals are sums over the lines, so they split over a concatenation. */
  lemma {:induction false} TotalsAppend(a: seq<WcLineItem>, b: seq<WcLineItem>)
    ensures SubTotal(a + b) == SubTotal(a) + SubTotal(b)
    ensures ShipmentWeight(a + b) == ShipmentWeight(a) + ShipmentWeight(b)
    decreases |b|
  {
    if b == [] {
      assert a + b == a;
    } else {
      var init := b[..|b| - 1];
      TotalsAppend(a, init);
      assert (a + b)[..|a + b| - 1] == a + init;
    }
  }

  /** The payload copies the billing block and maps every line; its fixed fields are a prepaid parcel of
    * 10 x 10 x 10 shipped to the billing address, and its order id reads back as the shop order's id. */
  lemma {:induction false} ShipmentPayloadFields(order: WcOrderData, env: Env)
    ensures var p := ShipmentPayloadOf(order, env);
            && p.shippingIsBilling && p.paymentMethod == "Prepaid"
            && p.length == 10 && p.breadth == 10 && p.height == 10
            && p.billing == order.billing && p.orderDate == Slice(order.dateCreated, 10)
            && p.pickupLocation == env.pickupName && p.channelId == env.channelId
            && |p.items| == |order.lineItems|
            && (forall i :: 0 <= i < |order.lineItems| ==> p.items[i] == ShipmentItemOf(order.lineItems[i]))
            && (order.id >= 0 ==> AllDigits(p.orderId) && NumeralValue(p.orderId) == order.id)
  {
    if order.id >= 0 {
      NatToStringValue(order.id);
    }
  }

  /** A date-time keeps only its date. */
  lemma {:induction false} OrderDateIsDatePart(date: string, time: string)
    requires |date| == 10
    ensures Slice(date + "T" + time, 10) == date
  {
    assert (date + "T" + time)[..10] == date;
  }
}
