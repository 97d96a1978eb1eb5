/** Product categories and product listings as the WooCommerce store returns them. */
module Catalog {
  import opened Wrappers

  /** A product category; `parent` is 0 for a top-level category, `count` the number of products in it. */
  datatype Category = Category(id: int, name: string, slug: string, parent: int, count: int)

  /** A product in a listing; `price` is `None` where `parseFloat(product.price)` is `NaN`. */
  datatype Listing = Listing(id: int, name: string, price: Option<real>)

  /** `items.find(x => x.slug === slug)`, as the position of the first match; `slugOf` reads an item's slug. */
  function FindBySlug<T>(items: seq<T>, slugOf: T -> string, slug: string): (r: Option<nat>)
    ensures r.Some? ==> r.value < |items| && slugOf(items[r.value]) == slug
    ensures r.Some? ==> forall k :: 0 <= k < r.value ==> slugOf(items[k]) != slug
    ensures r.None? <==> forall k :: 0 <= k < |items| ==> slugOf(items[k]) != slug
  {
    if items == [] then None
    else if slugOf(items[0]) == slug then Some(0)
    else match FindBySlug(items[1..], slugOf, slug)
      case None => None
      case Some(k) => Some(k + 1)
  }

  function CategorySlug(c: Category): string { c.slug }

  /** `categories.filter(keep)`: the categories that pass, in their order. */
  function Filter(cats: seq<Category>, keep: Category -> bool): (r: seq<Category>)
    ensures |r| <= |cats|
    ensures forall c :: c in r <==> c in cats && keep(c)
  {
    if cats == [] then []
    else (if keep(cats[0]) then [cats[0]] else []) + Filter(cats[1..], keep)
  }

  /** Filtering twice keeps what passes both tests. */
  lemma {:induction false} FilterFilter(cats: seq<Category>, p: Category -> bool, q: Category -> bool)
    ensures Filter(Filter(cats, p), q) == Filter(cats, c => p(c) && q(c))
  {
    if cats != [] {
      FilterFilter(cats[1..], p, q);
      var head := if p(cats[0]) then [cats[0]] else [];
      assert Filter(cats, p) == head + Filter(cats[1..], p);
      FilterAppend(head, Filter(cats[1..], p), q);
      if p(cats[0]) {
        assert head[1..] == [];
        assert Filter(head, q) == (if q(cats[0]) then [cats[0]] else []) + Filter([], q);
      }
    }
  }

  lemma {:induction false} FilterAppend(a: seq<Category>, b: seq<Category>, keep: Category -> bool)
    ensures Filter(a + b, keep) == Filter(a, keep) + Filter(b, keep)
  {
    if a == [] {
      assert a + b == b;
    } else {
      assert (a + b)[0] == a[0];
      assert (a + b)[1..] == a[1..] + b;
      FilterAppend(a[1..], b, keep);
    }
  }
}
