/** The shop's filter bar: the filter record, the state it derives from its `currentFilters` prop, single-key edits
  * and the "active" test. */
module ProductFilter {
  import opened Wrappers
  import opened Text
  import opened Catalog

  /** The filter record; `category` holds a category id as a string, '' for all categories. */
  datatype Filters = Filters(category: string, priceRange: string, sortBy: string, inStock: bool, onSale: bool)

  /** The record a fresh product grid starts from. */
  const DefaultFilters: Filters := Filters("", "", "newest", false, false)

  /** The five properties of the `currentFilters` prop that the bar reads. `None` is a property that is absent or,
    * for the two flags, not a string: a boolean is never `=== 'true'`. */
  datatype FilterProps = FilterProps(
    categorySlug: Option<string>, priceRange: Option<string>, sortBy: Option<string>,
    inStock: Option<string>, onSale: Option<string>)

  /** `findCategoryIdBySlug(slug)`: the id, as a string, of the first category with that slug; '' when none has it. */
  function FindCategoryIdBySlug(cats: seq<Category>, slug: Option<string>): (r: string)
    ensures slug.None? ==> r == ""
    ensures slug.Some? && FindBySlug(cats, CategorySlug, slug.value).Some? ==> r == IntToString(cats[FindBySlug(cats, CategorySlug, slug.value).value].id)
    ensures r == "" <==> slug.None? || FindBySlug(cats, CategorySlug, slug.value).None?
  {
    if slug.None? then ""
    else match FindBySlug(cats, CategorySlug, slug.value)
      case None => ""
      case Some(k) => IntToString(cats[k].id)
  }

  /** The string the bar selects reads back as the category's id. */
  lemma {:induction false} FindCategoryIdReadsBack(cats: seq<Category>, slug: string)
    requires FindBySlug(cats, CategorySlug, slug).Some?
    requires cats[FindBySlug(cats, CategorySlug, slug).value].id >= 0
    ensures var r := FindCategoryIdBySlug(cats, Some(slug));
            AllDigits(r) && NumeralValue(r) == cats[FindBySlug(cats, CategorySlug, slug).value].id
  {
    NatToStringValue(cats[FindBySlug(cats, CategorySlug, slug).value].id);
  }

  /** `value || fallback` on a query parameter: absent and '' both take the fallback. */
  function OrDefault(value: Option<string>, fallback: string): (r: string)
    ensures value.Some? && value.value != "" ==> r == value.value
    ensures value.None? || value.value == "" ==> r == fallback
  {
    if value.Some? && value.value != "" then value.value else fallback
  }

  /** The record the bar derives from its `currentFilters` prop: at mount, and again in the effect that runs whenever
    * the prop or the categories change. */
  function InitialFilters(cats: seq<Category>, url: FilterProps): (f: Filters)
    ensures f.category == FindCategoryIdBySlug(cats, url.categorySlug)
    ensures f.priceRange == OrDefault(url.priceRange, "")
    ensures f.sortBy == OrDefault(url.sortBy, "newest") && f.sortBy != ""
    ensures f.inStock <==> url.inStock == Some("true")
    ensures f.onSale <==> url.onSale == Some("true")
  {
    Filters(
      FindCategoryIdBySlug(cats, url.categorySlug),
      OrDefault(url.priceRange, ""),
      OrDefault(url.sortBy, "newest"),
      url.inStock == Some("true"),
      url.onSale == Some("true"))
  }

  /** The default prop `{}` gives the grid's default record. */
  lemma {:induction false} EmptyQueryGivesDefaults(cats: seq<Category>)
    ensures InitialFilters(cats, FilterProps(None, None, None, None, None)) == DefaultFilters
  {
  }

  // ------------------------------------------------------------ the grid's record as the prop

  /** The product grid passes its own filter record as `currentFilters`: it has no `category_slug` property, and its
    * two flags are booleans. */
  function PropsOf(g: Filters): FilterProps {
    FilterProps(None, Some(g.priceRange), Some(g.sortBy), None, None)
  }

  /** The bar's state after the effect re-runs on the grid's record `g`: the category and both flags are always
    * cleared, and only the price range and the sort survive. */
  function Resync(cats: seq<Category>, g: Filters): (f: Filters)
    ensures f.category == "" && !f.inStock && !f.onSale
    ensures f.priceRange == g.priceRange
    ensures f.sortBy == (if g.sortBy == "" then "newest" else g.sortBy)
  {
    InitialFilters(cats, PropsOf(g))
  }

  /** The re-sync reproduces the grid's record exactly when that record selects no category and neither flag. */
  lemma {:induction false} ResyncDropsSelection(cats: seq<Category>, g: Filters)
    ensures Resync(cats, g) == g <==> g.category == "" && !g.inStock && !g.onSale && g.sortBy != ""
  {
    var f := Resync(cats, g);
    if g.category == "" && !g.inStock && !g.onSale && g.sortBy != "" {
      FiltersExtensional(f, g);
    }
  }

  /** The record the grid receives from the bar's next edit `e`, once the bar has re-synced from the grid's `g`. */
  function NextGridFilters(cats: seq<Category>, g: Filters, e: FilterEdit): (r: Filters)
    ensures KeyOf(e) != CategoryKey ==> r.category == ""
    ensures KeyOf(e) != InStockKey ==> !r.inStock
    ensures KeyOf(e) != OnSaleKey ==> !r.onSale
    ensures KeyOf(e) != PriceRangeKey ==> r.priceRange == g.priceRange
  {
    HandleLocalFilterChange(Resync(cats, g), e).1
  }

  /** A category chosen in the bar is lost on the next edit of another control: after choosing category "12", a change
    * of the sort sends the grid a record without it. */
  lemma {:induction false} SortChangeDropsCategory(cats: seq<Category>)
    ensures var chosen := HandleLocalFilterChange(DefaultFilters, SetCategory("12")).1;
            && chosen.category == "12"
            && NextGridFilters(cats, chosen, SetSortBy("price-asc")) == Filters("", "", "price-asc", false, false)
            && NextGridFilters(cats, chosen, SetSortBy("price-asc")) != ApplyEdit(chosen, SetSortBy("price-asc"))
  {
    var chosen := HandleLocalFilterChange(DefaultFilters, SetCategory("12")).1;
    assert chosen == Filters("12", "", "newest", false, false);
  }

  /** The re-sync the bar evidently intends: its state mirrors the grid's record, read with the record's own keys. */
  function CorrectedResync(g: Filters): (f: Filters)
    ensures forall k :: k != SortByKey ==> Get(f, k) == Get(g, k)
    ensures f.sortBy == (if g.sortBy == "" then "newest" else g.sortBy)
  {
    Filters(OrDefault(Some(g.category), ""), OrDefault(Some(g.priceRange), ""), OrDefault(Some(g.sortBy), "newest"),
            g.inStock, g.onSale)
  }

  /** With the intended re-sync an edit changes only its own key of the grid's record; the grid's sort, a value of the
    * sort box, is never '', and an empty one would read as 'newest'. */
  lemma {:induction false} CorrectedEditKeepsOthers(g: Filters, e: FilterEdit)
    ensures var r := HandleLocalFilterChange(CorrectedResync(g), e).1;
            && (forall k :: k != KeyOf(e) && k != SortByKey ==> Get(r, k) == Get(g, k))
            && (g.sortBy != "" ==> r == ApplyEdit(g, e))
  {
    if g.sortBy != "" {
      var f := CorrectedResync(g);
      forall k ensures Get(f, k) == Get(g, k) {
      }
      FiltersExtensional(f, g);
    }
  }

  // ------------------------------------------------------------ keys, values and edits

  datatype FilterKey = CategoryKey | PriceRangeKey | SortByKey | InStockKey | OnSaleKey

  datatype FilterValue = Str(s: string) | Flag(b: bool)

  function Get(f: Filters, key: FilterKey): FilterValue {
    match key
    case CategoryKey => Str(f.category)
    case PriceRangeKey => Str(f.priceRange)
    case SortByKey => Str(f.sortBy)
    case InStockKey => Flag(f.inStock)
    case OnSaleKey => Flag(f.onSale)
  }

  /** `Object.entries(filters)`, in the record's key order. */
  function Entries(f: Filters): (r: seq<(FilterKey, FilterValue)>)
    ensures |r| == 5
    ensures forall i :: 0 <= i < 5 ==> r[i].1 == Get(f, r[i].0)
  {
    [(CategoryKey, Str(f.category)), (PriceRangeKey, Str(f.priceRange)), (SortByKey, Str(f.sortBy)),
     (InStockKey, Flag(f.inStock)), (OnSaleKey, Flag(f.onSale))]
  }

  /** One control's change: the select boxes give strings, the check boxes booleans. */
  datatype FilterEdit = SetCategory(category: string) | SetPriceRange(range: string) | SetSortBy(sortBy: string)
                      | SetInStock(inStock: bool) | SetOnSale(onSale: bool)

  function KeyOf(e: FilterEdit): FilterKey {
    match e
    case SetCategory(_) => CategoryKey
    case SetPriceRange(_) => PriceRangeKey
    case SetSortBy(_) => SortByKey
    case SetInStock(_) => InStockKey
    case SetOnSale(_) => OnSaleKey
  }

  function ValueOf(e: FilterEdit): FilterValue {
    match e
    case SetCategory(v) => Str(v)
    case SetPriceRange(v) => Str(v)
    case SetSortBy(v) => Str(v)
    case SetInStock(v) => Flag(v)
    case SetOnSale(v) => Flag(v)
  }

  /** `{ ...filters, [key]: value }`. */
  function ApplyEdit(f: Filters, e: FilterEdit): (r: Filters)
    ensures Get(r, KeyOf(e)) == ValueOf(e)
    ensures forall k :: k != KeyOf(e) ==> Get(r, k) == Get(f, k)
  {
    match e
    case SetCategory(v) => f.(category := v)
    case SetPriceRange(v) => f.(priceRange := v)
    case SetSortBy(v) => f.(sortBy := v)
    case SetInStock(v) => f.(inStock := v)
    case SetOnSale(v) => f.(onSale := v)
  }

  /** `handleLocalFilterChange(key, value)`: the bar's new record, which is also the one passed to `onFilterChange`. */
  function HandleLocalFilterChange(f: Filters, e: FilterEdit): (r: (Filters, Filters))
    ensures r.0 == r.1
    ensures Get(r.0, KeyOf(e)) == ValueOf(e)
    ensures forall k :: k != KeyOf(e) ==> Get(r.0, k) == Get(f, k)
  {
    var next := ApplyEdit(f, e);
    (next, next)
  }

  /** Two records agreeing on every key are the same record. */
  lemma {:induction false} FiltersExtensional(f: Filters, g: Filters)
    requires forall k :: Get(f, k) == Get(g, k)
    ensures f == g
  {
    assert Get(f, CategoryKey) == Get(g, CategoryKey);
    assert Get(f, PriceRangeKey) == Get(g, PriceRangeKey);
    assert Get(f, SortByKey) == Get(g, SortByKey);
    assert Get(f, InStockKey) == Get(g, InStockKey);
    assert Get(f, OnSaleKey) == Get(g, OnSaleKey);
  }

  /** Setting a key back to the value it had restores the record. */
  lemma {:induction false} EditUndo(f: Filters, e: FilterEdit, undo: FilterEdit)
    requires KeyOf(undo) == KeyOf(e) && ValueOf(undo) == Get(f, KeyOf(e))
    ensures ApplyEdit(ApplyEdit(f, e), undo) == f
  {
    var g := ApplyEdit(ApplyEdit(f, e), undo);
    forall k ensures Get(g, k) == Get(f, k) {
    }
    FiltersExtensional(g, f);
  }

  // ------------------------------------------------------------ hasActiveFilters

  /** One entry of the `some` callback: 'newest' is the inactive sort, otherwise any value but '' and `false` is active. */
  predicate EntryActive(key: FilterKey, value: FilterValue) {
    if key == SortByKey && value == Str("newest") then false
    else value != Str("") && value != Flag(false)
  }

  function AnyActive(entries: seq<(FilterKey, FilterValue)>): (r: bool)
    ensures r <==> exists i :: 0 <= i < |entries| && EntryActive(entries[i].0, entries[i].1)
  {
    if entries == [] then false
    else EntryActive(entries[0].0, entries[0].1) || AnyActive(entries[1..])
  }

  /** `hasActiveFilters`. */
  function HasActiveFilters(f: Filters): bool {
    AnyActive(Entries(f))
  }

  /** The filters are inactive exactly when category and price range are '', both flags are off, and the sort is 'newest' or ''. */
  lemma {:induction false} HasActiveFiltersIff(f: Filters)
    ensures HasActiveFilters(f) <==>
      f.category != "" || f.priceRange != "" || (f.sortBy != "newest" && f.sortBy != "") || f.inStock || f.onSale
  {
    var e := Entries(f);
    assert EntryActive(e[0].0, e[0].1) <==> f.category != "";
    assert EntryActive(e[1].0, e[1].1) <==> f.priceRange != "";
    assert EntryActive(e[2].0, e[2].1) <==> f.sortBy != "newest" && f.sortBy != "";
    assert EntryActive(e[3].0, e[3].1) <==> f.inStock;
    assert EntryActive(e[4].0, e[4].1) <==> f.onSale;
  }

  /** The grid's defaults, and so the record an empty query gives, show no active filter. */
  lemma {:induction false} DefaultsInactive()
    ensures !HasActiveFilters(DefaultFilters)
  {
    HasActiveFiltersIff(DefaultFilters);
  }
}
