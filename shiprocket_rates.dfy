/** The courier rates endpoint: validates the request, signs in to the courier service and asks it for the couriers
  * serving the delivery postcode. */
module ShiprocketRates {
  import opened Wrappers
  import CartStore
  import Checkout

  /** A cart item as posted; a missing or zero weight is `None` or `Some(0.0)`. */
  datatype Item = Item(weight: Option<real>, quantity: int, price: real)

  datatype RatesBody = RatesBody(deliveryPostcode: Option<string>, cart: Option<seq<Item>>)

  datatype Env = Env(email: Option<string>, password: Option<string>, pickupPostcode: Option<string>)

  /** The courier service's login answer: whether it was ok, and the token in its body. */
  datatype LoginAnswer = LoginAnswer(ok: bool, token: Option<string>)

  /** The serviceability query: `cod` is always "0". */
  datatype RatesQuery = RatesQuery(pickupPostcode: string, deliveryPostcode: string, weight: real, cod: string,
                                   declaredValue: real, token: string)

  /** The serviceability answer: the HTTP status, the body's `status`, and `data.available_courier_companies`. */
  datatype RatesAnswer = RatesAnswer(httpStatus: int, bodyStatus: Option<int>, companies: Option<seq<Checkout.RawRate>>)

  datatype ResponseBody = Message(message: string) | Rates(rates: seq<Checkout.RawRate>)

  datatype Response = Response(status: int, body: ResponseBody)

  const MethodNotAllowed: Response := Response(405, Message("Method Not Allowed"))
  const MissingFields: Response := Response(400, Message("Missing required fields: delivery_postcode and cart."))
  const CredentialsMissing: string := "Shiprocket credentials missing in environment variables."
  const AuthFailed: string := "Failed to authenticate with Shiprocket."
  /** The error thrown by `pickup_postcode.toString()` when the variable is unset. */
  const PickupUnset: string := "Cannot read properties of undefined (reading 'toString')"

  predicate Truthy(s: Option<string>) { s.Some? && s.value != "" }

  /** `item.weight || 0.5`. */
  function WeightOf(w: Option<real>): (r: real)
    ensures w.Some? && w.value != 0.0 ==> r == w.value
    ensures w.None? || w == Some(0.0) ==> r == 0.5
  {
    if w.Some? && w.value != 0.0 then w.value else 0.5
  }

  function TotalWeight(items: seq<Item>): real {
    if items == [] then 0.0
    else TotalWeight(items[..|items| - 1]) + WeightOf(items[|items| - 1].weight) * items[|items| - 1].quantity as real
  }

  function DeclaredValue(items: seq<Item>): real {
    if items == [] then 0.0
    else DeclaredValue(items[..|items| - 1]) + items[|items| - 1].price * items[|items| - 1].quantity as real
  }

  function RatesQueryFor(pickup: string, delivery: string, items: seq<Item>, token: string): (q: RatesQuery)
    ensures q.cod == "0" && q.weight == TotalWeight(items) && q.declaredValue == DeclaredValue(items)
    ensures q.pickupPostcode == pickup && q.deliveryPostcode == delivery && q.token == token
  {
    RatesQuery(pickup, delivery, TotalWeight(items), "0", DeclaredValue(items), token)
  }

  /** The handler. `login` and `serviceability` stand for the two remote calls (an `Err` is a thrown error with its
    * message); returns the response and what each call was sent. */
  method Handle(httpMethod: string, body: RatesBody, env: Env,
                login: (string, string) -> Result<LoginAnswer, string>,
                serviceability: RatesQuery -> Result<RatesAnswer, string>)
    returns (resp: Response, loginSent: Option<(string, string)>, querySent: Option<RatesQuery>)
    ensures httpMethod != "POST" ==> resp == MethodNotAllowed && loginSent.None? && querySent.None?
    ensures httpMethod == "POST" && (!Truthy(body.deliveryPostcode) || body.cart.None? || |body.cart.value| == 0) ==>
      resp == MissingFields && loginSent.None? && querySent.None?
    ensures querySent.Some? ==> loginSent.Some?
    ensures loginSent.Some? <==>
      httpMethod == "POST" && Truthy(body.deliveryPostcode) && body.cart.Some? && |body.cart.value| > 0
      && Truthy(env.email) && Truthy(env.password)
    ensures httpMethod == "POST" && Truthy(body.deliveryPostcode) && body.cart.Some? && |body.cart.value| > 0
            && !(Truthy(env.email) && Truthy(env.password)) ==>
      resp == Response(500, Message(CredentialsMissing))
    ensures loginSent.Some? ==>
      && loginSent.value == (env.email.value, env.password.value)
      && match login(env.email.value, env.password.value)
         case Err(m) => querySent.None? && resp == Response(500, Message(m))
         case Ok(a) =>
           if !a.ok || !Truthy(a.token) then querySent.None? && resp == Response(500, Message(AuthFailed))
           else if env.pickupPostcode.None? then querySent.None? && resp == Response(500, Message(PickupUnset))
           else
             && querySent == Some(RatesQueryFor(env.pickupPostcode.value, body.deliveryPostcode.value, body.cart.value, a.token.value))
             && match serviceability(querySent.value)
                case Err(m) => resp == Response(500, Message(m))
                case Ok(r) =>
                  if r.httpStatus != 200 || r.bodyStatus != Some(200) then resp == Response(200, Rates([]))
                  else resp == Response(200, Rates(if r.companies.Some? then r.companies.value else []))
  {
    loginSent := None;
    querySent := None;
    if httpMethod != "POST" {
      resp := MethodNotAllowed;
      return;
    }
    if !Truthy(body.deliveryPostcode) || body.cart.None? || |body.cart.value| == 0 {
      resp := MissingFields;
      return;
    }
    if !Truthy(env.email) || !Truthy(env.password) {
      resp := Response(500, Message(CredentialsMissing));
      return;
    }
    loginSent := Some((env.email.value, env.password.value));
    var auth := login(env.email.value, env.password.value);
    if auth.Err? {
      resp := Response(500, Message(auth.error));
      return;
    }
    if !auth.value.ok || !Truthy(auth.value.token) {
      resp := Response(500, Message(AuthFailed));
      return;
    }
    if env.pickupPostcode.None? {
      resp := Response(500, Message(PickupUnset));
      return;
    }
    var query := RatesQueryFor(env.pickupPostcode.value, body.deliveryPostcode.value, body.cart.value, auth.value.token.value);
    querySent := Some(query);
    var answer := serviceability(query);
    if answer.Err? {
      resp := Response(500, Message(answer.error));
      return;
    }
    var r := answer.value;
    if r.httpStatus != 200 || r.bodyStatus != Some(200) {
      resp := Response(200, Rates([]));
      return;
    }
    resp := Response(200, Rates(if r.companies.Some? then r.companies.value else []));
  }

  // ------------------------------------------------------------ agreement with the checkout page

  /** The cart the checkout page posts, as this endpoint reads it. */
  function ItemsOf(request: Checkout.RateRequest): (items: seq<Item>)
    ensures |items| == |request.items|
    ensures forall i :: 0 <= i < |items| ==>
      items[i] == Item(Some(request.items[i].weight), request.items[i].quantity, request.items[i].price)
  {
    seq(|request.items|, i requires 0 <= i < |request.items| =>
      Item(Some(request.items[i].weight), request.items[i].quantity, request.items[i].price))
  }

  /** Every item of the checkout's request weighs 0.5 kg, so the total weight is half the item count, and the declared
    * value is the cart total. */
  lemma {:induction false} CheckoutRequestTotals(zip: string, cart: seq<CartStore.CartLine>)
    ensures var items := ItemsOf(Checkout.RateRequestFor(zip, cart));
            TotalWeight(items) == 0.5 * CartStore.ItemCount(cart) as real
            && DeclaredValue(items) == CartStore.Total(cart)
    decreases |cart|
  {
    if cart != [] {
      var init := cart[..|cart| - 1];
      CheckoutRequestTotals(zip, init);
      assert ItemsOf(Checkout.RateRequestFor(zip, cart))[..|cart| - 1] == ItemsOf(Checkout.RateRequestFor(zip, init));
    }
  }

  /** Items without a weight count half a kilogram per unit. */
  lemma {:induction false} UnweighedItemsCountHalfKilo(items: seq<Item>)
    requires forall i :: 0 <= i < |items| ==> items[i].weight.None?
    ensures TotalWeight(items) == 0.5 * Units(items) as real
    decreases |items|
  {
    if items != [] {
      UnweighedItemsCountHalfKilo(items[..|items| - 1]);
    }
  }

  /** With non-negative quantities, weights and prices both totals are non-negative; the weight is positive once
    * every item has at least one unit, since an item without a weight counts half a kilogram. */
  lemma {:induction false} TotalsNonNegative(items: seq<Item>)
    requires forall i :: 0 <= i < |items| ==>
               items[i].quantity >= 0 && items[i].price >= 0.0 && (items[i].weight.Some? ==> items[i].weight.value >= 0.0)
    ensures TotalWeight(items) >= 0.0 && DeclaredValue(items) >= 0.0
    ensures items != [] && (forall i :: 0 <= i < |items| ==> items[i].quantity >= 1) ==> TotalWeight(items) > 0.0
    decreases |items|
  {
    if items != [] {
      TotalsNonNegative(items[..|items| - 1]);
      var last := items[|items| - 1];
      var w := WeightOf(last.weight);
      assert w > 0.0;
      assert w * last.quantity as real >= 0.0 && last.price * last.quantity as real >= 0.0;
      if last.quantity >= 1 {
        assert w * last.quantity as real >= w;
      }
    }
  }

  function Units(items: seq<Item>): int {
    if items == [] then 0 else Units(items[..|items| - 1]) + items[|items| - 1].quantity
  }
}
