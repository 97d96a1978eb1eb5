/** The order summary shown beside the cart: subtotal, flat-rate shipping, tax and the free-shipping notice. */
module CartSummary {
  import opened Wrappers
  import opened CartStore

  const FreeShippingThreshold: real := 50.0
  const FlatShipping: real := 10.0
  const TaxRate: real := 0.08

  /** The figures one rendering of the summary shows. */
  datatype Summary = Summary(
    lineCount: nat,       // `cart.length`, the "(n items)" label
    subtotal: real,
    shipping: real,
    tax: real,
    total: real,
    notice: Option<real>) // the "Add $x more for free shipping!" amount, when the notice shows

  /** Shipping as written: free only strictly above the threshold. */
  function Shipping(subtotal: real): (r: real)
    ensures r == 0.0 || r == FlatShipping
    ensures r == 0.0 <==> subtotal > FreeShippingThreshold
  {
    if subtotal > FreeShippingThreshold then 0.0 else FlatShipping
  }

  /** The notice as written: shown strictly below the threshold, with the distance to it. */
  function Notice(subtotal: real): (r: Option<real>)
    ensures r.Some? <==> subtotal < FreeShippingThreshold
    ensures r.Some? ==> r.value > 0.0 && subtotal + r.value == FreeShippingThreshold
  {
    if subtotal < FreeShippingThreshold then Some(FreeShippingThreshold - subtotal) else None
  }

  /** "item" for one cart line, "items" otherwise. */
  function ItemLabel(lineCount: nat): (r: string)
    ensures r == "item" <==> lineCount == 1
    ensures r == "item" || r == "items"
  {
    if lineCount != 1 then "items" else "item"
  }

  /** The summary of a cart as the component computes it. */
  function SummaryOf(cart: seq<CartLine>): (s: Summary)
    ensures s.subtotal == Total(cart) && s.lineCount == |cart|
    ensures s.total == s.subtotal * (1.0 + TaxRate) + s.shipping
    ensures s.shipping == 0.0 <==> Total(cart) > FreeShippingThreshold
    ensures s.shipping == Shipping(s.subtotal) && s.tax == s.subtotal * TaxRate
    ensures s.notice == Notice(s.subtotal)
  {
    var subtotal := Total(cart);
    var shipping := Shipping(subtotal);
    var tax := subtotal * TaxRate;
    Summary(|cart|, subtotal, shipping, tax, subtotal + shipping + tax, Notice(subtotal))
  }

  /** A larger subtotal never costs more shipping, and never shows a larger notice amount. */
  lemma {:induction false} ShippingMonotone(a: real, b: real)
    requires a <= b
    ensures Shipping(b) <= Shipping(a)
    ensures Notice(b).Some? ==> Notice(a).Some? && Notice(b).value <= Notice(a).value
  {
  }

  /** On a cart of non-negative prices the total is at least the subtotal plus its tax. */
  lemma {:induction false} TotalCoversSubtotal(cart: seq<CartLine>)
    requires forall i :: 0 <= i < |cart| ==> cart[i].price >= 0.0 && cart[i].quantity >= 0
    ensures SummaryOf(cart).subtotal >= 0.0
    ensures SummaryOf(cart).total >= SummaryOf(cart).subtotal * (1.0 + TaxRate)
  {
    TotalNonNegative(cart);
  }

  lemma {:induction false} TotalNonNegative(cart: seq<CartLine>)
    requires forall i :: 0 <= i < |cart| ==> cart[i].price >= 0.0 && cart[i].quantity >= 0
    ensures Total(cart) >= 0.0
  {
    if cart != [] {
      TotalNonNegative(cart[..|cart| - 1]);
    }
  }

  /** The label counts cart lines, not copies: it never exceeds the item count when every quantity is positive. */
  lemma {:induction false} LineCountAtMostItemCount(cart: seq<CartLine>)
    requires forall i :: 0 <= i < |cart| ==> cart[i].quantity >= 1
    ensures SummaryOf(cart).lineCount <= ItemCount(cart)
  {
    if cart != [] {
      LineCountAtMostItemCount(cart[..|cart| - 1]);
    }
  }

  // ------------------------------------------------------------ the threshold mismatch

  /** Adding exactly the amount the notice asks for still leaves shipping charged. */
  lemma {:induction false} NoticeAmountFallsShort(subtotal: real)
    requires Notice(subtotal).Some?
    ensures Shipping(subtotal + Notice(subtotal).value) == FlatShipping
  {
  }

  /** At exactly the threshold, shipping is charged and no notice explains it. */
  lemma {:induction false} AtThresholdChargedSilently()
    ensures Shipping(FreeShippingThreshold) == FlatShipping && Notice(FreeShippingThreshold) == None
  {
  }

  /** Shipping with the threshold the notice promises: free from the threshold up. */
  function CorrectedShipping(subtotal: real): (r: real)
    ensures r == 0.0 <==> subtotal >= FreeShippingThreshold
    ensures r == 0.0 || r == FlatShipping
  {
    if subtotal >= FreeShippingThreshold then 0.0 else FlatShipping
  }

  /** The summary with the corrected shipping rule. */
  function CorrectedSummaryOf(cart: seq<CartLine>): (s: Summary)
    ensures s.subtotal == Total(cart) && s.lineCount == |cart|
    ensures s.total == s.subtotal * (1.0 + TaxRate) + s.shipping
    ensures s.shipping == CorrectedShipping(s.subtotal) && s.tax == s.subtotal * TaxRate
    ensures s.shipping == 0.0 <==> Total(cart) >= FreeShippingThreshold
    ensures s.notice == Notice(s.subtotal)
  {
    var subtotal := Total(cart);
    var shipping := CorrectedShipping(subtotal);
    var tax := subtotal * TaxRate;
    Summary(|cart|, subtotal, shipping, tax, subtotal + shipping + tax, Notice(subtotal))
  }

  /** With the corrected rule the notice shows exactly when shipping is charged, and adding its amount makes shipping free. */
  lemma {:induction false} CorrectedNoticeIsExact(cart: seq<CartLine>)
    ensures var s := CorrectedSummaryOf(cart);
            && (s.notice.Some? <==> s.shipping == FlatShipping)
            && (s.notice.Some? ==> CorrectedShipping(s.subtotal + s.notice.value) == 0.0)
  {
  }
}
