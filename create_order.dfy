/** The order endpoint: creates the shop order, then a payment order for the same amount in paise. */
module CreateOrder {
  import opened Wrappers
  import opened Text
  import opened JsNumber
  import CartStore
  import Checkout

  /** A line of the posted order as the endpoint reads it: `price` is absent or empty as `None`. */
  datatype OrderLine = OrderLine(quantity: int, price: Option<real>)

  /** The posted order: its line items and the totals of its shipping lines (a falsy total as `None`). */
  datatype OrderBody = OrderBody(lineItems: seq<OrderLine>, shippingTotals: seq<Option<real>>)

  /** The endpoint's environment; a variable unset or empty is not configured. */
  datatype Env = Env(wcUrl: Option<string>, wcKey: Option<string>, wcSecret: Option<string>,
                     razorpayKeyId: Option<string>, razorpaySecret: Option<string>)

  predicate Present(v: Option<string>) { v.Some? && v.value != "" }

  predicate Configured(env: Env) {
    Present(env.wcUrl) && Present(env.wcKey) && Present(env.wcSecret) && Present(env.razorpayKeyId) && Present(env.razorpaySecret)
  }

  /** The order the shop backend returns. */
  datatype WcOrder = WcOrder(id: int, total: string)

  /** How creating the shop order can fail: an answer that is not ok (with the message of its body), or a thrown error. */
  datatype WcFailure = NotOk(bodyMessage: Option<string>) | Threw(message: Option<string>)

  /** The payment order request. */
  datatype RazorpayOrder = RazorpayOrder(amount: int, currency: string, receipt: string, paymentCapture: int, wooOrderId: int)

  datatype ResponseBody = Message(message: string) | Created(id: int, total: string, razorpayOrderId: string)

  datatype Response = Response(status: int, body: ResponseBody)

  const MethodNotAllowed: Response := Response(405, Message("Method Not Allowed"))
  const NotConfigured: Response := Response(500, Message("API credentials not configured."))
  const WcDefault: string := "Failed to create WooCommerce order."
  const InternalDefault: string := "An internal server error occurred."

  /** `message || fallback`. */
  function MessageOr(m: Option<string>, fallback: string): (r: string)
    ensures fallback != "" ==> r != ""
    ensures m.Some? && m.value != "" ==> r == m.value
  {
    if m.Some? && m.value != "" then m.value else fallback
  }

  /** `item.quantity * parseFloat(item.price || 0)`. */
  function LineAmount(l: OrderLine): real {
    l.quantity as real * (if l.price.Some? then l.price.value else 0.0)
  }

  /** The `reduce` over the line items. */
  function Subtotal(lines: seq<OrderLine>): real {
    if lines == [] then 0.0 else Subtotal(lines[..|lines| - 1]) + LineAmount(lines[|lines| - 1])
  }

  /** `shipping_lines?.[0]?.total`, or 0. */
  function Shipping(body: OrderBody): (r: real)
    ensures |body.shippingTotals| == 0 ==> r == 0.0
    ensures |body.shippingTotals| > 0 && body.shippingTotals[0].Some? ==> r == body.shippingTotals[0].value
  {
    if |body.shippingTotals| > 0 && body.shippingTotals[0].Some? then body.shippingTotals[0].value else 0.0
  }

  /** The amount in paise: the order total times 100, rounded half up. */
  function Amount(body: OrderBody): (a: int)
    ensures (Subtotal(body.lineItems) + Shipping(body)) * 100.0 - 0.5 < a as real
    ensures a as real <= (Subtotal(body.lineItems) + Shipping(body)) * 100.0 + 0.5
  {
    Round((Subtotal(body.lineItems) + Shipping(body)) * 100.0)
  }

  function RazorpayOrderFor(body: OrderBody, wcId: int): (o: RazorpayOrder)
    ensures o.amount == Amount(body) && o.wooOrderId == wcId && o.currency == "INR" && o.paymentCapture == 1
    ensures o.receipt == "wc_order_" + IntToString(wcId)
  {
    RazorpayOrder(Amount(body), "INR", "wc_order_" + IntToString(wcId), 1, wcId)
  }

  /** The handler. `wooCreate` and `razorpayCreate` stand for the two remote calls; returns the response and what each
    * call was sent. */
  method Handle(httpMethod: string, body: OrderBody, env: Env,
                wooCreate: OrderBody -> Result<WcOrder, WcFailure>,
                razorpayCreate: RazorpayOrder -> Result<string, Option<string>>)
    returns (resp: Response, wcSent: Option<OrderBody>, rzpSent: Option<RazorpayOrder>)
    ensures httpMethod != "POST" ==> resp == MethodNotAllowed && wcSent.None? && rzpSent.None?
    ensures httpMethod == "POST" && !Configured(env) ==> resp == NotConfigured && wcSent.None? && rzpSent.None?
    ensures httpMethod == "POST" && Configured(env) ==>
      && wcSent == Some(body)
      && match wooCreate(body)
         case Err(NotOk(m)) => rzpSent.None? && resp == Response(500, Message(MessageOr(m, WcDefault)))
         case Err(Threw(m)) => rzpSent.None? && resp == Response(500, Message(MessageOr(m, InternalDefault)))
         case Ok(order) =>
           && rzpSent == Some(RazorpayOrderFor(body, order.id))
           && match razorpayCreate(rzpSent.value)
              case Err(m) => resp == Response(500, Message(MessageOr(m, InternalDefault)))
              case Ok(rid) => resp == Response(200, Created(order.id, order.total, rid))
    ensures resp.status == 200 <==> resp.body.Created?
  {
    wcSent := None;
    rzpSent := None;
    if httpMethod != "POST" {
      resp := MethodNotAllowed;
      return;
    }
    if !Configured(env) {
      resp := NotConfigured;
      return;
    }
    wcSent := Some(body);
    var wc := wooCreate(body);
    if wc.Err? {
      var message := match wc.error
        case NotOk(m) => MessageOr(m, WcDefault)
        case Threw(m) => MessageOr(m, InternalDefault);
      resp := Response(500, Message(message));
      return;
    }
    var order := wc.value;
    var request := RazorpayOrderFor(body, order.id);
    rzpSent := Some(request);
    var rzp := razorpayCreate(request);
    if rzp.Err? {
      resp := Response(500, Message(MessageOr(rzp.error, InternalDefault)));
      return;
    }
    resp := Response(200, Created(order.id, order.total, rzp.value));
  }

  // ------------------------------------------------------------ agreement with the checkout page

  /** The order the checkout page posts, as this endpoint reads it (prices and totals are sent as decimal strings,
    * which read back as the same numbers). */
  function BodyOf(p: Checkout.OrderPayload): (b: OrderBody)
    ensures |b.lineItems| == |p.lineItems| && |b.shippingTotals| == |p.shippingLines|
  {
    OrderBody(
      seq(|p.lineItems|, i requires 0 <= i < |p.lineItems| => OrderLine(p.lineItems[i].quantity, Some(p.lineItems[i].price))),
      seq(|p.shippingLines|, i requires 0 <= i < |p.shippingLines| => Some(p.shippingLines[i].total)))
  }

  function LinesOf(cart: seq<CartStore.CartLine>): (r: seq<OrderLine>)
    ensures |r| == |cart|
    ensures forall i :: 0 <= i < |cart| ==> r[i] == OrderLine(cart[i].quantity, Some(cart[i].price))
  {
    seq(|cart|, i requires 0 <= i < |cart| => OrderLine(cart[i].quantity, Some(cart[i].price)))
  }

  /** The endpoint's subtotal of a cart's lines is the cart total. */
  lemma {:induction false} SubtotalOfCart(cart: seq<CartStore.CartLine>)
    ensures Subtotal(LinesOf(cart)) == CartStore.Total(cart)
    decreases |cart|
  {
    if cart != [] {
      var init := cart[..|cart| - 1];
      SubtotalOfCart(init);
      assert LinesOf(cart)[..|cart| - 1] == LinesOf(init);
    }
  }

  /** The payment order's amount is the checkout widget's amount rounded to whole paise. */
  lemma {:induction false} AmountMatchesCheckout(form: Checkout.CheckoutForm, cart: seq<CartStore.CartLine>, rate: Checkout.Rate)
    ensures Amount(BodyOf(Checkout.BuildOrderPayload(form, cart, rate)))
         == Round((CartStore.Total(cart) + rate.charges) * 100.0)
  {
    var p := Checkout.BuildOrderPayload(form, cart, rate);
    var b := BodyOf(p);
    assert b.lineItems == LinesOf(cart);
    SubtotalOfCart(cart);
    assert Shipping(b) == rate.charges;
  }

  /** Two copies at 500 with 50 shipping come to 105000 paise. */
  lemma {:induction false} AmountExample()
    ensures Amount(OrderBody([OrderLine(2, Some(500.0))], [Some(50.0)])) == 105000
  {
    var lines := [OrderLine(2, Some(500.0))];
    assert lines[..0] == [];
    assert Subtotal(lines) == 1000.0;
    RoundOfInteger(105000);
  }

  /** With non-negative quantities and prices the order amount is non-negative. */
  lemma {:induction false} SubtotalNonNegative(lines: seq<OrderLine>)
    requires forall i :: 0 <= i < |lines| ==>
               lines[i].quantity >= 0 && (lines[i].price.Some? ==> lines[i].price.value >= 0.0)
    ensures Subtotal(lines) >= 0.0
    decreases |lines|
  {
    if lines != [] {
      SubtotalNonNegative(lines[..|lines| - 1]);
    }
  }

  /** A line without a price adds nothing. */
  lemma {:induction false} UnpricedLineAddsNothing(lines: seq<OrderLine>, quantity: int)
    ensures Subtotal(lines + [OrderLine(quantity, None)]) == Subtotal(lines)
  {
    assert (lines + [OrderLine(quantity, None)])[..|lines|] == lines;
  }
}
