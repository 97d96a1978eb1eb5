/**
 * The client cart: a sequence of cart lines kept in the browser's `cart` cookie.
 * Every mutator reads the cookie, changes the lines and writes them back.
 */
module CartStore {
  import opened Wrappers

  datatype Image = Image(src: string)

  /** The product fields the cart copies when a line is added. */
  datatype Product = Product(id: int, name: string, price: real, images: seq<Image>)

  /** A cart line; its price and image are a snapshot of the product when it was added. */
  datatype CartLine = CartLine(id: int, name: string, price: real, image: string, quantity: int)

  /** `product.images[0]?.src || ''`. */
  function FirstImage(p: Product): string {
    if |p.images| > 0 then p.images[0].src else ""
  }

  function NewLine(p: Product, quantity: int): CartLine {
    CartLine(p.id, p.name, p.price, FirstImage(p), quantity)
  }

  /** `cart.find(item => item.id === id)`, as a position: the first line with that id. */
  function IndexOf(cart: seq<CartLine>, id: int): (r: Option<nat>)
    ensures r.Some? ==> r.value < |cart| && cart[r.value].id == id
    ensures r.Some? ==> forall j :: 0 <= j < r.value ==> cart[j].id != id
    ensures r.None? <==> forall j :: 0 <= j < |cart| ==> cart[j].id != id
  {
    if cart == [] then None
    else if cart[0].id == id then Some(0)
    else match IndexOf(cart[1..], id)
         case None => None
         case Some(k) => Some(k + 1)
  }

  predicate UniqueIds(cart: seq<CartLine>) {
    forall i, j :: 0 <= i < j < |cart| ==> cart[i].id != cart[j].id
  }

  /** The cart after adding `quantity` of `p`: merge into the first line with that id, or append a new line. */
  function Added(cart: seq<CartLine>, p: Product, quantity: int): seq<CartLine> {
    match IndexOf(cart, p.id)
    case Some(i) => cart[i := cart[i].(quantity := cart[i].quantity + quantity)]
    case None => cart + [NewLine(p, quantity)]
  }

  /** `cart.filter(item => item.id !== id)`. */
  function Removed(cart: seq<CartLine>, id: int): seq<CartLine> {
    if cart == [] then []
    else
      var last := cart[|cart| - 1];
      Removed(cart[..|cart| - 1], id) + if last.id == id then [] else [last]
  }

  /** `getCartItemCount`: the sum of the quantities. */
  function ItemCount(cart: seq<CartLine>): int {
    if cart == [] then 0 else ItemCount(cart[..|cart| - 1]) + cart[|cart| - 1].quantity
  }

  /** `getCartTotal`: the sum of price times quantity. */
  function Total(cart: seq<CartLine>): real {
    if cart == [] then 0.0
    else Total(cart[..|cart| - 1]) + cart[|cart| - 1].price * cart[|cart| - 1].quantity as real
  }

  // ------------------------------------------------------------------ the store

  class CartStore {
    /** The `cart` cookie: absent, or the lines it holds (the JSON encoding is not modelled). */
    var cookie: Option<seq<CartLine>>

    /** `getCart()`: the stored lines, or none when the cookie is absent. */
    function Lines(): seq<CartLine>
      reads this
    {
      if cookie.Some? then cookie.value else []
    }

    constructor ()
      ensures cookie == None && Lines() == []
    {
      cookie := None;
    }

    method GetCart() returns (cart: seq<CartLine>)
      ensures cart == Lines()
    {
      cart := if cookie.Some? then cookie.value else [];
    }

    /** The position `cart.find` stops at, or `|cart|` when no line has the id. */
    static method Find(cart: seq<CartLine>, id: int) returns (i: nat)
      ensures i <= |cart|
      ensures (if i < |cart| then Some(i) else None) == IndexOf(cart, id)
    {
      i := 0;
      while i < |cart| && cart[i].id != id
        invariant i <= |cart|
        invariant forall j :: 0 <= j < i ==> cart[j].id != id
      {
        i := i + 1;
      }
    }

    method AddToCart(product: Product, quantity: int := 1) returns (cart: seq<CartLine>)
      modifies this
      ensures cart == Added(old(Lines()), product, quantity)
      ensures cookie == Some(cart)
    {
      cart := GetCart();
      var i := Find(cart, product.id);
      if i < |cart| {
        cart := cart[i := cart[i].(quantity := cart[i].quantity + quantity)];
      } else {
        cart := cart + [NewLine(product, quantity)];
      }
      cookie := Some(cart);
    }

    method UpdateQuantity(id: int, quantity: int) returns (cart: seq<CartLine>)
      modifies this
      ensures IndexOf(old(Lines()), id).None? ==> cart == old(Lines()) && cookie == old(cookie)
      ensures IndexOf(old(Lines()), id).Some? && quantity <= 0 ==>
                cart == Removed(old(Lines()), id) && cookie == Some(cart)
      ensures IndexOf(old(Lines()), id).Some? && quantity > 0 ==>
                var i := IndexOf(old(Lines()), id).value;
                cart == old(Lines())[i := old(Lines())[i].(quantity := quantity)] && cookie == Some(cart)
    {
      cart := GetCart();
      var i := Find(cart, id);
      if i < |cart| {
        if quantity <= 0 {
          cart := RemoveFromCart(id);
          return;
        }
        cart := cart[i := cart[i].(quantity := quantity)];
        cookie := Some(cart);
      }
    }

    method RemoveFromCart(id: int) returns (updated: seq<CartLine>)
      modifies this
      ensures updated == Removed(old(Lines()), id)
      ensures cookie == Some(updated)
    {
      var cart := GetCart();
      updated := [];
      var k := 0;
      while k < |cart|
        invariant k <= |cart|
        invariant updated == Removed(cart[..k], id)
      {
        assert cart[..k + 1][..k] == cart[..k];
        if cart[k].id != id {
          updated := updated + [cart[k]];
        }
        k := k + 1;
      }
      assert cart[..k] == cart;
      cookie := Some(updated);
    }

    method ClearCart() returns (cart: seq<CartLine>)
      modifies this
      ensures cart == [] && cookie == None && Lines() == []
    {
      cookie := None;
      cart := [];
    }

    method GetCartTotal() returns (total: real)
      ensures total == Total(Lines())
    {
      var cart := GetCart();
      total := 0.0;
      var k := 0;
      while k < |cart|
        invariant k <= |cart|
        invariant total == Total(cart[..k])
      {
        assert cart[..k + 1][..k] == cart[..k];
        total := total + cart[k].price * cart[k].quantity as real;
        k := k + 1;
      }
      assert cart[..k] == cart;
    }

    method GetCartItemCount() returns (count: int)
      ensures count == ItemCount(Lines())
    {
      var cart := GetCart();
      count := 0;
      var k := 0;
      while k < |cart|
        invariant k <= |cart|
        invariant count == ItemCount(cart[..k])
      {
        assert cart[..k + 1][..k] == cart[..k];
        count := count + cart[k].quantity;
        k := k + 1;
      }
      assert cart[..k] == cart;
    }
  }

  // ------------------------------------------------------------------ properties of the cart

  lemma {:induction false} ItemCountAppend(a: seq<CartLine>, b: seq<CartLine>)
    ensures ItemCount(a + b) == ItemCount(a) + ItemCount(b)
    ensures Total(a + b) == Total(a) + Total(b)
  {
    if b != [] {
      ItemCountAppend(a, b[..|b| - 1]);
      assert (a + b)[..|a + b| - 1] == a + b[..|b| - 1];
    } else {
      assert a + b == a;
    }
  }

  /** Changing one line changes the item count and the total by that line's difference. */
  lemma {:induction false} SumsAfterLineChange(cart: seq<CartLine>, i: nat, line: CartLine)
    requires i < |cart|
    ensures ItemCount(cart[i := line]) == ItemCount(cart) - cart[i].quantity + line.quantity
    ensures Total(cart[i := line]) ==
              Total(cart) - cart[i].price * cart[i].quantity as real + line.price * line.quantity as real
  {
    var left, right := cart[..i], cart[i + 1..];
    Split3(cart, i);
    Split3(cart[i := line], i);
    assert cart[i := line][..i] == left && cart[i := line][i + 1..] == right;
    SumsAround(cart, left, cart[i], right);
    SumsAround(cart[i := line], left, line, right);
    SingleTotal(cart[i]);
    SingleTotal(line);
  }

  /** Cutting line `i` out takes its share off both sums. */
  lemma {:induction false} CutSums(cart: seq<CartLine>, i: nat, rest: seq<CartLine>)
    requires i < |cart| && rest == cart[..i] + cart[i + 1..]
    ensures ItemCount(rest) == ItemCount(cart) - cart[i].quantity
    ensures Total(rest) == Total(cart) - cart[i].price * cart[i].quantity as real
  {
    var left, right, l := cart[..i], cart[i + 1..], cart[i];
    Split3(cart, i);
    SumsAround(cart, left, l, right);
    ItemCountAppend(left, right);
    SingleTotal(l);
  }

  lemma {:induction false} Split3(cart: seq<CartLine>, i: nat)
    requires i < |cart|
    ensures cart == cart[..i] + [cart[i]] + cart[i + 1..]
  {
  }

  /** The sums over `a + [l] + b` are those over `a`, `[l]` and `b`. */
  lemma {:induction false} SumsAround(c: seq<CartLine>, a: seq<CartLine>, l: CartLine, b: seq<CartLine>)
    requires c == a + [l] + b
    ensures ItemCount(c) == ItemCount(a) + l.quantity + ItemCount(b)
    ensures Total(c) == Total(a) + Total([l]) + Total(b)
  {
    ItemCountAppend(a + [l], b);
    ItemCountAppend(a, [l]);
    assert [l][..0] == [];
  }

  lemma {:induction false} SingleTotal(l: CartLine)
    ensures Total([l]) == l.price * l.quantity as real
  {
    assert [l][..0] == [];
  }

  /** Adding an id already in a cart with unique ids raises that line's quantity; nothing else changes. */
  lemma {:induction false} AddExisting(cart: seq<CartLine>, p: Product, quantity: int, i: nat)
    requires UniqueIds(cart) && i < |cart| && cart[i].id == p.id
    ensures Added(cart, p, quantity) == cart[i := cart[i].(quantity := cart[i].quantity + quantity)]
    ensures |Added(cart, p, quantity)| == |cart|
    ensures ItemCount(Added(cart, p, quantity)) == ItemCount(cart) + quantity
    ensures Total(Added(cart, p, quantity)) == Total(cart) + cart[i].price * quantity as real
  {
    var k := IndexOf(cart, p.id).value;
    assert k == i;
    SumsAfterLineChange(cart, i, cart[i].(quantity := cart[i].quantity + quantity));
  }

  /** Adding an id not in the cart appends one line, a snapshot of the product, at the end. */
  lemma {:induction false} AddNew(cart: seq<CartLine>, p: Product, quantity: int)
    requires forall k :: 0 <= k < |cart| ==> cart[k].id != p.id
    ensures Added(cart, p, quantity) == cart + [CartLine(p.id, p.name, p.price, FirstImage(p), quantity)]
    ensures ItemCount(Added(cart, p, quantity)) == ItemCount(cart) + quantity
    ensures Total(Added(cart, p, quantity)) == Total(cart) + p.price * quantity as real
  {
    ItemCountAppend(cart, [NewLine(p, quantity)]);
    assert [NewLine(p, quantity)][..0] == [];
  }

  /** Adding keeps ids unique and keeps the existing lines, in order, as a prefix. */
  lemma {:induction false} AddKeepsIdsUniqueAndOrder(cart: seq<CartLine>, p: Product, quantity: int)
    requires UniqueIds(cart)
    ensures UniqueIds(Added(cart, p, quantity))
    ensures |Added(cart, p, quantity)| >= |cart|
    ensures forall k :: 0 <= k < |cart| ==> Added(cart, p, quantity)[k].id == cart[k].id
  {
  }

  /** The scenario of adding one product twice, with 2 and then 3: a single line of quantity 5. */
  lemma {:induction false} AddTwiceMerges(cart: seq<CartLine>, p: Product)
    requires forall k :: 0 <= k < |cart| ==> cart[k].id != p.id
    ensures Added(Added(cart, p, 2), p, 3) == cart + [NewLine(p, 5)]
  {
    var once := Added(cart, p, 2);
    AddNew(cart, p, 2);
    assert once[|cart|].id == p.id;
    assert IndexOf(once, p.id) == Some(|cart|);
  }

  lemma {:induction false} RemovedAppend(a: seq<CartLine>, b: seq<CartLine>, id: int)
    ensures Removed(a + b, id) == Removed(a, id) + Removed(b, id)
  {
    if b == [] {
      assert a + b == a;
    } else {
      RemovedAppend(a, b[..|b| - 1], id);
      assert (a + b)[..|a + b| - 1] == a + b[..|b| - 1];
    }
  }

  lemma {:induction false} RemovedAbsent(cart: seq<CartLine>, id: int)
    requires forall k :: 0 <= k < |cart| ==> cart[k].id != id
    ensures Removed(cart, id) == cart
  {
    if cart != [] {
      RemovedAbsent(cart[..|cart| - 1], id);
    }
  }

  /** Removing drops exactly the lines with the id and keeps the rest in order. */
  lemma {:induction false} RemovedKeepsOthers(cart: seq<CartLine>, id: int)
    ensures forall l :: l in Removed(cart, id) <==> l in cart && l.id != id
    ensures |Removed(cart, id)| <= |cart|
  {
    if cart != [] {
      RemovedKeepsOthers(cart[..|cart| - 1], id);
      assert cart == cart[..|cart| - 1] + [cart[|cart| - 1]];
    }
  }

  /** Cutting out one line of a unique-id cart keeps the ids unique. */
  lemma {:induction false} CutKeepsUnique(cart: seq<CartLine>, i: nat)
    requires UniqueIds(cart) && i < |cart|
    ensures UniqueIds(cart[..i] + cart[i + 1..])
  {
    var r := cart[..i] + cart[i + 1..];
    forall a, b | 0 <= a < b < |r| ensures r[a].id != r[b].id {
      var a' := if a < i then a else a + 1;
      var b' := if b < i then b else b + 1;
      assert r[a] == cart[a'] && r[b] == cart[b'];
    }
  }

  /** In a cart with unique ids, removing a present id is cutting out its one line. */
  lemma {:induction false} RemoveExistingCuts(cart: seq<CartLine>, id: int, i: nat)
    requires UniqueIds(cart) && i < |cart| && cart[i].id == id
    ensures Removed(cart, id) == cart[..i] + cart[i + 1..]
  {
    var left, line, right := cart[..i], [cart[i]], cart[i + 1..];
    assert cart == left + line + right;
    RemovedAppend(left + line, right, id);
    RemovedAppend(left, line, id);
    RemovedAbsent(left, id);
    RemovedAbsent(right, id);
    assert line[..0] == [];
  }

  /** So the removal takes that one line's quantity and value out of the totals, and keeps ids unique. */
  lemma {:induction false} RemoveExisting(cart: seq<CartLine>, id: int, i: nat)
    requires UniqueIds(cart) && i < |cart| && cart[i].id == id
    ensures Removed(cart, id) == cart[..i] + cart[i + 1..]
    ensures |Removed(cart, id)| == |cart| - 1
    ensures ItemCount(Removed(cart, id)) == ItemCount(cart) - cart[i].quantity
    ensures Total(Removed(cart, id)) == Total(cart) - cart[i].price * cart[i].quantity as real
    ensures UniqueIds(Removed(cart, id))
  {
    RemoveExistingCuts(cart, id, i);
    CutSums(cart, i, Removed(cart, id));
    CutKeepsUnique(cart, i);
  }

  /** Setting a present line's quantity to a positive value changes that line alone. */
  lemma {:induction false} SetQuantityChangesOneLine(cart: seq<CartLine>, id: int, quantity: int)
    requires UniqueIds(cart) && IndexOf(cart, id).Some?
    ensures var i := IndexOf(cart, id).value;
            var after := cart[i := cart[i].(quantity := quantity)];
            && UniqueIds(after)
            && after[i].quantity == quantity
            && (forall k :: 0 <= k < |cart| && cart[k].id != id ==> after[k] == cart[k])
            && ItemCount(after) == ItemCount(cart) - cart[i].quantity + quantity
  {
    var i := IndexOf(cart, id).value;
    SumsAfterLineChange(cart, i, cart[i].(quantity := quantity));
  }
}
