/** The shop page's server side: the product parameters it builds from the URL, the categories it offers as filters, and its fallback. */
module ShopIndex {
  import opened Wrappers
  import opened Text
  import opened JsNumber
  import opened Catalog
  import ProductGrid

  /** The URL query; `None` is an absent parameter. */
  datatype ShopQuery = ShopQuery(
    categorySlug: Option<string>, page: Option<string>, sortBy: Option<string>, priceRange: Option<string>,
    inStock: Option<string>, onSale: Option<string>, author: Option<string>, publisher: Option<string>)

  /** A query value is truthy when present and not ''. */
  predicate Truthy(v: Option<string>) { v.Some? && v.value != "" }

  /** A product attribute, such as 'pa_book-author'. */
  datatype Attribute = Attribute(id: int, slug: string)

  datatype AttributeFilter = AttributeFilter(attribute: string, term: int)

  /** `productParams`; `None` and `false` stand for keys that are not set. */
  datatype ShopParams = ShopParams(
    perPage: nat, page: Option<int>, attribute: Option<AttributeFilter>, category: Option<int>,
    onSale: bool, stockStatus: Option<string>, minPrice: Option<string>, maxPrice: Option<string>,
    sort: Option<ProductGrid.SortKey>)

  /** The products response: its body and the `x-wp-total` and `x-wp-totalpages` headers. */
  datatype ProductPage = ProductPage(products: seq<Listing>, totalHeader: Option<string>, totalPagesHeader: Option<string>)

  /** The page's props; `None` numbers stand for `NaN`. */
  datatype ShopProps = ShopProps(
    products: seq<Listing>, categories: seq<Category>, totalPages: Option<int>, currentPage: Option<int>,
    totalProducts: Option<int>, categoryFromSlug: Option<Category>)

  const FallbackProps: ShopProps := ShopProps([], [], Some(1), Some(1), Some(0), None)

  /** The store's answers: `Err` is a call that throws. */
  datatype Store = Store(
    categories: Result<seq<Category>, string>,
    attributes: Result<seq<Attribute>, string>,
    terms: (int, string) -> Result<seq<int>, string>,
    products: ShopParams -> Result<ProductPage, string>)

  /** `parseInt(page, 10)`, with the default page 1 when the parameter is absent. */
  function PageNumber(page: Option<string>): (r: Option<int>)
    ensures page.None? ==> r == Some(1)
  {
    if page.None? then Some(1) else ParseInt(page.value)
  }

  // ------------------------------------------------------------ category selection

  /** The category named by the slug, and the categories offered as filters. */
  datatype CategoryChoice = CategoryChoice(found: Option<Category>, forFilter: seq<Category>)

  /** With a slug: the matching category followed by its children that have products, or nothing when no category matches.
    * Without one: the top-level categories that have products. */
  function SelectCategories(cats: seq<Category>, slug: Option<string>): CategoryChoice
  {
    if Truthy(slug) then
      match FindBySlug(cats, CategorySlug, slug.value)
      case None => CategoryChoice(None, [])
      case Some(k) =>
        var c := cats[k];
        CategoryChoice(Some(c), [c] + Filter(cats, (d: Category) => d.parent == c.id && d.count > 0))
    else
      CategoryChoice(None, Filter(cats, (d: Category) => d.parent == 0 && d.count > 0))
  }

  /** The chosen category is the one the slug names, and the filter list holds exactly its children with products,
    * or, without a slug, exactly the top-level categories with products. */
  lemma {:induction false} SelectCategoriesFinds(cats: seq<Category>, slug: Option<string>)
    ensures var r := SelectCategories(cats, slug);
      Truthy(slug) && FindBySlug(cats, CategorySlug, slug.value).Some? ==>
      var c := cats[FindBySlug(cats, CategorySlug, slug.value).value];
      && r.found == Some(c) && |r.forFilter| >= 1 && r.forFilter[0] == c
      && forall d :: d in r.forFilter[1..] <==> d in cats && d.parent == c.id && d.count > 0
    ensures Truthy(slug) && FindBySlug(cats, CategorySlug, slug.value).None? ==> SelectCategories(cats, slug) == CategoryChoice(None, [])
    ensures var r := SelectCategories(cats, slug);
      !Truthy(slug) ==>
      && r.found.None?
      && forall d :: d in r.forFilter <==> d in cats && d.parent == 0 && d.count > 0
  {
    if Truthy(slug) && FindBySlug(cats, CategorySlug, slug.value).Some? {
      var c := cats[FindBySlug(cats, CategorySlug, slug.value).value];
      var children := Filter(cats, (d: Category) => d.parent == c.id && d.count > 0);
      assert ([c] + children)[1..] == children;
    }
  }

  // ------------------------------------------------------------ attribute terms

  function AttributeSlug(a: Attribute): string { a.slug }

  /** The first term with the slug in the attribute named `attrSlug`: nothing when no slug is asked for,
    * when the attribute does not exist or when no term matches; the error when the term lookup throws. */
  function ResolveTerm(attrs: seq<Attribute>, attrSlug: string, termSlug: Option<string>,
                       terms: (int, string) -> Result<seq<int>, string>): (r: Result<Option<int>, string>)
    ensures !Truthy(termSlug) || FindBySlug(attrs, AttributeSlug, attrSlug).None? ==> r == Ok(None)
    ensures r.Ok? && r.value.Some? ==>
      && Truthy(termSlug) && FindBySlug(attrs, AttributeSlug, attrSlug).Some?
      && var found := terms(attrs[FindBySlug(attrs, AttributeSlug, attrSlug).value].id, termSlug.value);
         found.Ok? && |found.value| > 0 && r.value.value == found.value[0]
  {
    if !Truthy(termSlug) then Ok(None)
    else match FindBySlug(attrs, AttributeSlug, attrSlug)
      case None => Ok(None)
      case Some(k) =>
        match terms(attrs[k].id, termSlug.value)
        case Err(e) => Err(e)
        case Ok(found) => Ok(if |found| > 0 then Some(found[0]) else None)
  }

  /** The attribute filter set by the two lookups run in turn: the publisher's assignment overwrites the author's. */
  function ChosenAttribute(authorTerm: Option<int>, publisherTerm: Option<int>): (r: Option<AttributeFilter>)
    ensures publisherTerm.Some? ==> r == Some(AttributeFilter("pa_publisher", publisherTerm.value))
    ensures publisherTerm.None? && authorTerm.Some? ==> r == Some(AttributeFilter("pa_book-author", authorTerm.value))
    ensures r.None? <==> publisherTerm.None? && authorTerm.None?
  {
    var afterAuthor := if authorTerm.Some? then Some(AttributeFilter("pa_book-author", authorTerm.value)) else None;
    if publisherTerm.Some? then Some(AttributeFilter("pa_publisher", publisherTerm.value)) else afterAuthor
  }

  // ------------------------------------------------------------ ranges and sorting

  /** `priceRange.split('-')` destructured into `min_price` and `max_price`, set only when a range is given. */
  function PriceParams(range: Option<string>): (r: (Option<string>, Option<string>))
    ensures !Truthy(range) ==> r == (None, None)
    ensures Truthy(range) ==> r.0 == Some(Split(range.value, '-')[0])
  {
    if Truthy(range) then
      var parts := Split(range.value, '-');
      (Some(parts[0]), if |parts| >= 2 then Some(parts[1]) else None)
    else (None, None)
  }

  /** A range "a-b" sends `a` and `b` as they are. */
  lemma {:induction false} PriceParamsOfPair(a: string, b: string)
    requires '-' !in a && '-' !in b && a + "-" + b != ""
    ensures PriceParams(Some(a + "-" + b)) == (Some(a), Some(b))
  {
    SplitAtFirstSeparator(a, b, '-');
    SplitWithoutSeparator(b, '-');
  }

  /** No sort parameter sends no order; any other value is sorted as the product grid sorts it. */
  function SortFor(sortBy: Option<string>): (r: Option<ProductGrid.SortKey>)
    ensures !Truthy(sortBy) <==> r.None?
    ensures Truthy(sortBy) ==> r == Some(ProductGrid.SortOrder(sortBy.value))
  {
    if Truthy(sortBy) then Some(ProductGrid.SortOrder(sortBy.value)) else None
  }

  // ------------------------------------------------------------ getServerSideProps

  /** What `productParams` holds once every step has run, given the resolved attribute terms. */
  predicate ParamsMatch(p: ShopParams, query: ShopQuery, cats: seq<Category>, authorTerm: Option<int>, publisherTerm: Option<int>) {
    var choice := SelectCategories(cats, query.categorySlug);
    && p.perPage == ProductGrid.ProductsPerPage && p.page == PageNumber(query.page)
    && p.attribute == ChosenAttribute(authorTerm, publisherTerm)
    && p.category == (if choice.found.Some? then Some(choice.found.value.id) else None)
    && (p.onSale <==> query.onSale == Some("true"))
    && p.stockStatus == (if query.inStock == Some("true") then Some("instock") else None)
    && (p.minPrice, p.maxPrice) == PriceParams(query.priceRange)
    && p.sort == SortFor(query.sortBy)
  }

  /** The props of a products answer. */
  function PropsOf(page: ProductPage, query: ShopQuery, choice: CategoryChoice): ShopProps {
    ShopProps(page.products, choice.forFilter,
              if page.totalPagesHeader.Some? then ParseInt(page.totalPagesHeader.value) else None,
              PageNumber(query.page),
              if page.totalHeader.Some? then ParseInt(page.totalHeader.value) else None,
              choice.found)
  }

  /** The successive assignments to `productParams`, once the attribute terms are known. */
  method BuildParams(query: ShopQuery, cats: seq<Category>, authorTerm: Option<int>, publisherTerm: Option<int>)
    returns (params: ShopParams)
    ensures ParamsMatch(params, query, cats, authorTerm, publisherTerm)
  {
    params := ShopParams(ProductGrid.ProductsPerPage, PageNumber(query.page), None, None, false, None, None, None, None);
    if authorTerm.Some? {
      params := params.(attribute := Some(AttributeFilter("pa_book-author", authorTerm.value)));
    }
    if publisherTerm.Some? {
      params := params.(attribute := Some(AttributeFilter("pa_publisher", publisherTerm.value)));
    }
    assert params.attribute == ChosenAttribute(authorTerm, publisherTerm);
    var choice := SelectCategories(cats, query.categorySlug);
    if choice.found.Some? {
      params := params.(category := Some(choice.found.value.id));
    }
    assert params.category == (if choice.found.Some? then Some(choice.found.value.id) else None);
    if query.onSale == Some("true") {
      params := params.(onSale := true);
    }
    assert params.onSale <==> query.onSale == Some("true");
    if query.inStock == Some("true") {
      params := params.(stockStatus := Some("instock"));
    }
    assert params.stockStatus == (if query.inStock == Some("true") then Some("instock") else None);
    if Truthy(query.priceRange) {
      var range := PriceParams(query.priceRange);
      params := params.(minPrice := range.0, maxPrice := range.1);
    }
    assert (params.minPrice, params.maxPrice) == PriceParams(query.priceRange);
    if Truthy(query.sortBy) {
      params := params.(sort := Some(ProductGrid.SortOrder(query.sortBy.value)));
    }
    assert params.sort == SortFor(query.sortBy);
  }

  /** `getServerSideProps`: resolves the attribute terms, builds the parameters, sends them with the products
    * request and turns the answer into props; any call that throws gives the fallback props. */
  method GetServerSideProps(query: ShopQuery, store: Store) returns (props: ShopProps, sent: Option<ShopParams>)
    ensures store.categories.Err? || store.attributes.Err? ==> sent.None? && props == FallbackProps
    ensures sent.None? ==> props == FallbackProps
    ensures && store.categories.Ok? && store.attributes.Ok?
            && ResolveTerm(store.attributes.value, "pa_book-author", query.author, store.terms).Ok?
            && ResolveTerm(store.attributes.value, "pa_publisher", query.publisher, store.terms).Ok?
            ==> sent.Some?
    ensures sent.Some? ==>
      && store.categories.Ok? && store.attributes.Ok?
      && var author := ResolveTerm(store.attributes.value, "pa_book-author", query.author, store.terms);
         var publisher := ResolveTerm(store.attributes.value, "pa_publisher", query.publisher, store.terms);
      && author.Ok? && publisher.Ok?
      && ParamsMatch(sent.value, query, store.categories.value, author.value, publisher.value)
      && props == match store.products(sent.value)
                  case Err(_) => FallbackProps
                  case Ok(page) => PropsOf(page, query, SelectCategories(store.categories.value, query.categorySlug))
  {
    sent := None;
    props := FallbackProps;
    if store.categories.Err? || store.attributes.Err? {
      return;
    }
    var cats := store.categories.value;
    var attrs := store.attributes.value;
    var author := ResolveTerm(attrs, "pa_book-author", query.author, store.terms);
    if author.Err? {
      return;
    }
    var publisher := ResolveTerm(attrs, "pa_publisher", query.publisher, store.terms);
    if publisher.Err? {
      return;
    }
    var params := BuildParams(query, cats, author.value, publisher.value);
    sent := Some(params);
    var response := store.products(params);
    if response.Ok? {
      props := PropsOf(response.value, query, SelectCategories(cats, query.categorySlug));
    }
  }

  /** What a call to `api.getAttributes`, which the API module does not define, does: it throws a TypeError. */
  const MissingEndpoint := "api.getAttributes is not a function"

  /** `getServerSideProps` as written: the attributes come from `api.getAttributes`, which does not exist, so the
    * call throws inside the `try` and every request gets the fallback props without a products request. */
  method GetServerSidePropsAsWritten(query: ShopQuery, store: Store) returns (props: ShopProps, sent: Option<ShopParams>)
    ensures props == FallbackProps && sent.None?
  {
    props, sent := GetServerSideProps(query, store.(attributes := Err(MissingEndpoint)));
  }

  /** When both an author term and a publisher term resolve, the products are filtered by the publisher only. */
  lemma {:induction false} PublisherWins(author: int, publisher: int)
    ensures ChosenAttribute(Some(author), Some(publisher)) == Some(AttributeFilter("pa_publisher", publisher))
  {
  }

  /** A slug that matches no category sends no category and offers no category filter. */
  lemma {:induction false} UnknownSlugOffersNothing(cats: seq<Category>, slug: string)
    requires slug != "" && forall k :: 0 <= k < |cats| ==> cats[k].slug != slug
    ensures SelectCategories(cats, Some(slug)) == CategoryChoice(None, [])
  {
  }
}
