/** The shop's product grid: the product query it sends, the price-range filter it applies, page counting and pagination. */
module ProductGrid {
  import opened Wrappers
  import opened Text
  import opened JsNumber
  import opened Catalog
  import opened ProductFilter

  const ProductsPerPage: nat := 12
  const MaxVisiblePages: nat := 5

  // ------------------------------------------------------------ the product query

  /** The `orderby` and `order` parameters. */
  datatype SortKey = SortKey(orderby: string, order: string)

  /** The sort switch: four named orders, everything else (the default 'newest' among them) newest first. */
  function SortOrder(sortBy: string): (r: SortKey)
    ensures r.order == "asc" <==> sortBy == "price-asc" || sortBy == "name-asc"
    ensures r.orderby == "price" <==> sortBy == "price-asc" || sortBy == "price-desc"
    ensures r.orderby == "title" <==> sortBy == "name-asc"
    ensures r.orderby == "popularity" <==> sortBy == "popularity"
    ensures r == SortKey("date", "desc") <==> sortBy !in {"price-asc", "price-desc", "name-asc", "popularity"}
  {
    match sortBy
    case "price-asc" => SortKey("price", "asc")
    case "price-desc" => SortKey("price", "desc")
    case "name-asc" => SortKey("title", "asc")
    case "popularity" => SortKey("popularity", "desc")
    case _ => SortKey("date", "desc")
  }

  /** The `params` object; `onSale` false and `None` fields stand for keys that are not set. */
  datatype ProductQuery = ProductQuery(
    page: int, perPage: nat, category: Option<string>, stockStatus: Option<string>, onSale: bool, sort: SortKey)

  /** The query for a filter record and page: the price range is not sent, it is applied to the response. */
  function QueryFor(f: Filters, page: int): (q: ProductQuery)
    ensures q.page == page && q.perPage == ProductsPerPage
    ensures q.category.Some? <==> f.category != ""
    ensures q.category.Some? ==> q.category.value == f.category
    ensures q.stockStatus == (if f.inStock then Some("instock") else None)
    ensures q.onSale == f.onSale
    ensures q.sort == SortOrder(f.sortBy)
  {
    ProductQuery(
      page, ProductsPerPage,
      if f.category != "" then Some(f.category) else None,
      if f.inStock then Some("instock") else None,
      f.onSale,
      SortOrder(f.sortBy))
  }

  /** The query does not depend on the price range. */
  lemma {:induction false} QueryIgnoresPriceRange(f: Filters, page: int, range: string)
    ensures QueryFor(f.(priceRange := range), page) == QueryFor(f, page)
  {
  }

  /** The first page of the unfiltered grid asks for twelve products, newest first, and nothing else. */
  lemma {:induction false} DefaultQuery()
    ensures QueryFor(DefaultFilters, 1) == ProductQuery(1, 12, None, None, false, SortKey("date", "desc"))
  {
  }

  // ------------------------------------------------------------ the price-range filter

  /** The two ends of a price range, each `None` where `Number` gives `NaN`. */
  datatype PriceBounds = PriceBounds(min: Option<real>, max: Option<real>)

  /** `priceRange.split('-').map(Number)`, destructured into `[min, max]`. */
  function ParseRange(range: string): (b: PriceBounds)
    ensures b.min == ToNumber(Split(range, '-')[0])
    ensures |Split(range, '-')| < 2 ==> b.max == None
  {
    var parts := Split(range, '-');
    PriceBounds(ToNumber(parts[0]), if |parts| >= 2 then ToNumber(parts[1]) else None)
  }

  /** The filter callback: an upper bound of exactly 999 means "no upper bound"; `NaN` fails every comparison. */
  predicate InRange(price: Option<real>, b: PriceBounds) {
    if b.max == Some(999.0) then price.Some? && b.min.Some? && price.value >= b.min.value
    else price.Some? && b.min.Some? && b.max.Some? && b.min.value <= price.value <= b.max.value
  }

  function KeepInRange(products: seq<Listing>, b: PriceBounds): (r: seq<Listing>)
    ensures |r| <= |products|
    ensures forall p :: p in r <==> p in products && InRange(p.price, b)
  {
    if products == [] then []
    else (if InRange(products[0].price, b) then [products[0]] else []) + KeepInRange(products[1..], b)
  }

  /** The price-range step of `fetchProducts`: no range keeps everything, otherwise the products whose price lies in it. */
  function FilterByPrice(products: seq<Listing>, range: string): (r: seq<Listing>)
    ensures range == "" ==> r == products
    ensures range != "" ==> forall p :: p in r <==> p in products && InRange(p.price, ParseRange(range))
    ensures |r| <= |products|
  {
    if range == "" then products else KeepInRange(products, ParseRange(range))
  }

  /** The filter keeps the order and the multiplicity of the server's page: it distributes over concatenation. */
  lemma {:induction false} KeepInRangeAppend(a: seq<Listing>, c: seq<Listing>, b: PriceBounds)
    ensures KeepInRange(a + c, b) == KeepInRange(a, b) + KeepInRange(c, b)
    decreases |a|
  {
    if a == [] {
      assert a + c == c;
    } else {
      KeepInRangeAppend(a[1..], c, b);
      assert (a + c)[1..] == a[1..] + c;
    }
  }

  /** A page whose products are all in range is kept whole and in order; one with none in range is emptied. */
  lemma {:induction false} KeepInRangeAllOrNone(products: seq<Listing>, b: PriceBounds)
    ensures (forall i :: 0 <= i < |products| ==> InRange(products[i].price, b)) ==> KeepInRange(products, b) == products
    ensures (forall i :: 0 <= i < |products| ==> !InRange(products[i].price, b)) ==> KeepInRange(products, b) == []
    decreases |products|
  {
    if products != [] {
      KeepInRangeAllOrNone(products[1..], b);
      assert forall i :: 0 <= i < |products[1..]| ==> products[1..][i] == products[i + 1];
    }
  }

  /** So the price filter keeps the sort order the server chose: filtering a concatenation filters each part. */
  lemma {:induction false} FilterByPriceAppend(a: seq<Listing>, c: seq<Listing>, range: string)
    ensures FilterByPrice(a + c, range) == FilterByPrice(a, range) + FilterByPrice(c, range)
  {
    if range != "" {
      KeepInRangeAppend(a, c, ParseRange(range));
    }
  }

  /** A range "a-b" whose ends contain no '-' has the ends `Number(a)` and `Number(b)`. */
  lemma {:induction false} ParseRangeOfPair(a: string, b: string)
    requires '-' !in a && '-' !in b
    ensures ParseRange(a + "-" + b) == PriceBounds(ToNumber(a), ToNumber(b))
  {
    SplitAtFirstSeparator(a, b, '-');
    SplitWithoutSeparator(b, '-');
  }

  /** Products whose price does not parse are dropped by every range. */
  lemma {:induction false} UnpricedDropped(products: seq<Listing>, range: string, p: Listing)
    requires range != "" && p.price.None?
    ensures p !in FilterByPrice(products, range)
  {
  }

  lemma {:induction false} ValueOf2000()
    ensures AllDigits("2000") && NumeralValue("2000") == 2000
  {
    assert "2000"[..3] == "200" && "200"[..2] == "20" && "20"[..1] == "2" && "2"[..0] == "";
  }

  lemma {:induction false} ValueOf999999()
    ensures AllDigits("999999") && NumeralValue("999999") == 999999
  {
    assert "999999"[..5] == "99999" && "99999"[..4] == "9999" && "9999"[..3] == "999";
    ValueOf999();
  }

  lemma {:induction false} ValueOf999()
    ensures AllDigits("999") && NumeralValue("999") == 999
  {
    assert "999"[..2] == "99" && "99"[..1] == "9" && "9"[..0] == "";
  }

  /** The "Over 2000" option is the range "2000-999999": its upper end is not the 999 sentinel, so it is an ordinary bounded range. */
  lemma {:induction false} OverRangeIsBounded()
    ensures ParseRange("2000-999999") == PriceBounds(Some(2000.0), Some(999999.0))
    ensures !InRange(Some(1000000.0), ParseRange("2000-999999"))
    ensures InRange(Some(2000.0), ParseRange("2000-999999"))
  {
    assert "2000-999999" == "2000" + "-" + "999999";
    ParseRangeOfPair("2000", "999999");
    ValueOf2000();
    ValueOf999999();
    ToNumberOfDigits("2000");
    ToNumberOfDigits("999999");
  }

  /** A range with the sentinel 999 as upper end keeps every parsed price from its lower end up. */
  lemma {:induction false} SentinelRangeIsUnbounded(min: nat, price: real)
    requires price >= min as real
    ensures InRange(Some(price), ParseRange(NatToString(min) + "-" + "999"))
  {
    var lo := NatToString(min);
    assert forall i :: 0 <= i < |lo| ==> lo[i] != '-';
    ParseRangeOfPair(lo, "999");
    ToNumberOfNumeral(min);
    ValueOf999();
    ToNumberOfDigits("999");
  }

  // ------------------------------------------------------------ pagination

  function Max(a: int, b: int): int { if a >= b then a else b }

  function Min(a: int, b: int): int { if a <= b then a else b }

  /** `generatePagination()`: up to five consecutive page numbers around the current page, shifted to stay inside [1, totalPages]. */
  method GeneratePagination(currentPage: int, totalPages: int) returns (pages: seq<int>)
    ensures forall k :: 0 <= k < |pages| ==> pages[k] == pages[0] + k
    ensures forall k :: 0 <= k < |pages| ==> 1 <= pages[k] <= totalPages
    ensures |pages| == if totalPages <= 0 then 0 else Min(MaxVisiblePages, totalPages)
    ensures 1 <= currentPage <= totalPages ==> currentPage in pages
    ensures 3 <= currentPage <= totalPages - 2 ==> |pages| == 5 && pages[0] == currentPage - 2
  {
    var startPage := Max(1, currentPage - MaxVisiblePages / 2);
    var endPage := Min(totalPages, startPage + MaxVisiblePages - 1);
    if endPage - startPage + 1 < MaxVisiblePages {
      startPage := Max(1, endPage - MaxVisiblePages + 1);
    }
    pages := [];
    var i := startPage;
    while i <= endPage
      invariant startPage <= i <= Max(startPage, endPage + 1)
      invariant |pages| == i - startPage
      invariant forall k :: 0 <= k < |pages| ==> pages[k] == startPage + k
    {
      pages := pages + [i];
      i := i + 1;
    }
    if pages != [] {
      assert pages[0] == startPage;
    }
    if 1 <= currentPage <= totalPages {
      assert pages[currentPage - startPage] == currentPage;
    }
  }

  // ------------------------------------------------------------ the grid's state

  /** The stand-in products shown when the fetch fails. */
  const MockProducts: seq<Listing> :=
    [Listing(1, "Winter Darkest Tragedy", Some(38.0)), Listing(2, "Symphony Of Trilogy", Some(22.0))]

  class GridState {
    var products: seq<Listing>
    var currentPage: int
    var totalPages: int
    var totalProducts: int
    var filters: Filters
    var loading: bool

    constructor(initialProducts: seq<Listing>)
      ensures products == initialProducts && currentPage == 1 && totalPages == 1 && totalProducts == 0
      ensures filters == DefaultFilters && !loading
    {
      products := initialProducts;
      currentPage := 1;
      totalPages := 1;
      totalProducts := 0;
      filters := DefaultFilters;
      loading := false;
    }

    /** `handleFilterChange(newFilters)`: takes the new record and goes back to the first page. */
    method HandleFilterChange(newFilters: Filters)
      modifies this
      ensures filters == newFilters && currentPage == 1
      ensures products == old(products) && totalPages == old(totalPages)
      ensures totalProducts == old(totalProducts) && loading == old(loading)
    {
      filters := newFilters;
      currentPage := 1;
    }

    /** `handlePageChange(page)`; the scroll to the top is not modelled. */
    method HandlePageChange(page: int)
      modifies this
      ensures currentPage == page
      ensures filters == old(filters) && products == old(products) && totalPages == old(totalPages)
      ensures totalProducts == old(totalProducts) && loading == old(loading)
    {
      currentPage := page;
    }

    /** `fetchProducts()`: sends the query for the current filters and page to `getProducts`,
      * then shows the price-filtered response and its counts, or the stand-in products when the call fails. */
    method FetchProducts(getProducts: ProductQuery -> Result<seq<Listing>, string>) returns (query: ProductQuery)
      modifies this
      ensures query == QueryFor(old(filters), old(currentPage))
      ensures getProducts(query).Ok? ==>
        && products == FilterByPrice(getProducts(query).value, filters.priceRange)
        && totalProducts == |products|
        && totalPages == CeilDiv(|products|, ProductsPerPage)
        && totalPages * ProductsPerPage >= totalProducts
      ensures getProducts(query).Err? ==>
        products == MockProducts && totalProducts == |MockProducts| && totalPages == old(totalPages)
      ensures filters == old(filters) && currentPage == old(currentPage) && !loading
    {
      loading := true;
      query := QueryFor(filters, currentPage);
      var response := getProducts(query);
      match response {
        case Ok(found) =>
          var filtered := FilterByPrice(found, filters.priceRange);
          products := filtered;
          totalProducts := |filtered|;
          totalPages := CeilDiv(|filtered|, ProductsPerPage);
        case Err(_) =>
          products := MockProducts;
          totalProducts := |MockProducts|;
      }
      loading := false;
    }
  }

  /** After a filter change the next query asks for page 1 of the new filters, whatever page was showing. */
  lemma {:induction false} FilterChangeQueriesFirstPage(f: Filters, page: int)
    ensures QueryFor(f, 1).page == 1 && QueryFor(f, 1) == QueryFor(f, page).(page := 1)
  {
  }
}
