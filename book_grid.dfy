/** The home page's book grid: the main and sub category tabs and the category whose products are shown. */
module BookGrid {
  import opened Wrappers
  import opened Catalog

  const BookGridPageSize: nat := 10

  /** The categories worth a tab: not 'uncategorized' and holding products. */
  function ValidCategories(cats: seq<Category>): (r: seq<Category>)
    ensures forall c :: c in r <==> c in cats && c.slug != "uncategorized" && c.count > 0
  {
    Filter(cats, (c: Category) => c.slug != "uncategorized" && c.count > 0)
  }

  function TopLevel(cats: seq<Category>): (r: seq<Category>)
    ensures forall c :: c in r <==> c in cats && c.parent == 0
  {
    Filter(cats, (c: Category) => c.parent == 0)
  }

  function ChildrenOf(cats: seq<Category>, main: int): (r: seq<Category>)
    ensures forall c :: c in r <==> c in cats && c.parent == main
  {
    Filter(cats, (c: Category) => c.parent == main)
  }

  /** `activeSubCategory && ...`: an absent sub and the id 0 are both falsy. */
  predicate Truthy(id: Option<int>) { id.Some? && id.value != 0 }

  predicate HasId(cats: seq<Category>, id: int) { exists c :: c in cats && c.id == id }

  /** What the second effect settles on: the sub category it leaves active, and the category to fetch. */
  datatype Selection = Selection(activeSub: Option<int>, toFetch: int)

  /** The second effect's choice for main category `main`: the active sub if it is one of main's children,
    * else main's first child (which becomes the active sub), else main itself. */
  function Decide(all: seq<Category>, main: int, sub: Option<int>): (r: Selection)
    ensures Truthy(sub) && HasId(ChildrenOf(all, main), sub.value) ==> r == Selection(sub, sub.value)
  {
    var children := ChildrenOf(all, main);
    if Truthy(sub) && HasId(children, sub.value) then Selection(sub, sub.value)
    else if |children| > 0 then Selection(Some(children[0].id), children[0].id)
    else Selection(sub, main)
  }

  /** The category fetched is main itself or one of its children, and it is main when main has no children. */
  lemma {:induction false} DecideStaysUnderMain(all: seq<Category>, main: int, sub: Option<int>)
    ensures var r := Decide(all, main, sub);
            r.toFetch == main || (HasId(ChildrenOf(all, main), r.toFetch) && exists c :: c in all && c.parent == main && c.id == r.toFetch)
    ensures |ChildrenOf(all, main)| == 0 ==> Decide(all, main, sub).toFetch == main
  {
    var children := ChildrenOf(all, main);
    var r := Decide(all, main, sub);
    if !(Truthy(sub) && HasId(children, sub.value)) && |children| > 0 {
      assert children[0] in children;
    }
  }

  /** Re-running the effect after it has updated the active sub changes nothing: the choice is a fixed point. */
  lemma {:induction false} DecideStable(all: seq<Category>, main: int, sub: Option<int>)
    ensures var r := Decide(all, main, sub);
            Decide(all, main, r.activeSub) == r
  {
    var children := ChildrenOf(all, main);
    if !(Truthy(sub) && HasId(children, sub.value)) && |children| > 0 {
      assert children[0] in children;
    }
  }

  /** A sub category that is not among main's children gives way to main's first child, which is both the new
    * active sub and the category fetched. */
  lemma {:induction false} ForeignSubReplaced(all: seq<Category>, main: int, sub: int)
    requires !HasId(ChildrenOf(all, main), sub) && |ChildrenOf(all, main)| > 0
    ensures Decide(all, main, Some(sub)).activeSub == Some(ChildrenOf(all, main)[0].id)
    ensures Decide(all, main, Some(sub)).toFetch == ChildrenOf(all, main)[0].id
  {
  }

  /** The products request of the third effect. */
  datatype BookQuery = BookQuery(perPage: nat, category: int)

  class BookGridState {
    var allCategories: seq<Category>
    var topLevelCategories: seq<Category>
    var subCategories: seq<Category>
    var products: seq<Listing>
    var loading: bool
    var activeMain: Option<int>
    var activeSub: Option<int>
    var categoryToFetch: Option<int>

    constructor()
      ensures allCategories == [] && topLevelCategories == [] && subCategories == [] && products == []
      ensures loading && activeMain.None? && activeSub.None? && categoryToFetch.None?
    {
      allCategories := [];
      topLevelCategories := [];
      subCategories := [];
      products := [];
      loading := true;
      activeMain := None;
      activeSub := None;
      categoryToFetch := None;
    }

    /** The first effect: keeps the valid categories, their top level, and makes the first top-level category
      * the active main one. A failed request leaves everything but `loading` as it was. */
    method LoadCategories(response: Result<seq<Category>, string>)
      modifies this
      ensures response.Ok? ==> allCategories == ValidCategories(response.value)
      ensures response.Ok? ==> topLevelCategories == TopLevel(ValidCategories(response.value))
      ensures response.Ok? && |topLevelCategories| > 0 ==> activeMain == Some(topLevelCategories[0].id)
      ensures response.Ok? && |topLevelCategories| == 0 ==> activeMain == old(activeMain)
      ensures response.Err? ==>
        allCategories == old(allCategories) && topLevelCategories == old(topLevelCategories) && activeMain == old(activeMain)
      ensures activeSub == old(activeSub) && categoryToFetch == old(categoryToFetch)
      ensures subCategories == old(subCategories) && products == old(products) && !loading
    {
      loading := true;
      if response.Ok? {
        var valid := ValidCategories(response.value);
        allCategories := valid;
        var top := TopLevel(valid);
        topLevelCategories := top;
        if |top| > 0 {
          activeMain := Some(top[0].id);
        }
      }
      loading := false;
    }

    /** The second effect: nothing while no main category is active; otherwise shows main's children and settles on
      * the category to fetch, as `Decide` chooses. */
    method DetermineCategoryToFetch()
      modifies this
      ensures activeMain.None? ==>
        subCategories == old(subCategories) && activeSub == old(activeSub) && categoryToFetch == old(categoryToFetch)
      ensures activeMain.Some? ==>
        var r := Decide(allCategories, activeMain.value, old(activeSub));
        && subCategories == ChildrenOf(allCategories, activeMain.value)
        && activeSub == r.activeSub && categoryToFetch == Some(r.toFetch)
      ensures allCategories == old(allCategories) && topLevelCategories == old(topLevelCategories)
      ensures activeMain == old(activeMain) && products == old(products) && loading == old(loading)
    {
      if activeMain.None? {
        return;
      }
      var main := activeMain.value;
      var children := ChildrenOf(allCategories, main);
      subCategories := children;
      if Truthy(activeSub) && HasId(children, activeSub.value) {
        categoryToFetch := activeSub;
      } else if |children| > 0 {
        var first := children[0].id;
        activeSub := Some(first);
        categoryToFetch := Some(first);
      } else {
        categoryToFetch := Some(main);
      }
    }

    /** The third effect: no category shows no products without a request; otherwise ten products of the category
      * are requested, and a failed request shows none. Returns the request sent. */
    method FetchProducts(getProducts: BookQuery -> Result<seq<Listing>, string>) returns (sent: Option<BookQuery>)
      modifies this
      ensures categoryToFetch.None? ==> sent.None? && products == [] && loading == old(loading)
      ensures categoryToFetch.Some? ==>
        && sent == Some(BookQuery(BookGridPageSize, categoryToFetch.value))
        && products == (match getProducts(sent.value) case Ok(found) => found case Err(_) => [])
        && !loading
      ensures allCategories == old(allCategories) && topLevelCategories == old(topLevelCategories)
      ensures subCategories == old(subCategories) && activeMain == old(activeMain)
      ensures activeSub == old(activeSub) && categoryToFetch == old(categoryToFetch)
    {
      if categoryToFetch.None? {
        products := [];
        sent := None;
        return;
      }
      loading := true;
      var query := BookQuery(BookGridPageSize, categoryToFetch.value);
      sent := Some(query);
      var response := getProducts(query);
      if response.Ok? {
        products := response.value;
      } else {
        products := [];
      }
      loading := false;
    }

    /** `handleMainCategoryClick(id)`: a new main category and no sub category, so the effect picks the default one. */
    method HandleMainClick(id: int)
      modifies this
      ensures activeMain == Some(id) && activeSub.None?
      ensures allCategories == old(allCategories) && topLevelCategories == old(topLevelCategories)
      ensures subCategories == old(subCategories) && products == old(products)
      ensures categoryToFetch == old(categoryToFetch) && loading == old(loading)
    {
      activeMain := Some(id);
      activeSub := None;
    }

    /** `handleSubCategoryClick(id)`: only the sub category changes. */
    method HandleSubClick(id: int)
      modifies this
      ensures activeSub == Some(id)
      ensures activeMain == old(activeMain) && allCategories == old(allCategories)
      ensures topLevelCategories == old(topLevelCategories) && subCategories == old(subCategories)
      ensures products == old(products) && categoryToFetch == old(categoryToFetch) && loading == old(loading)
    {
      activeSub := Some(id);
    }
  }

  /** Clicking one of main's children (with a non-zero id) makes that child the category fetched. */
  lemma {:induction false} SubClickFetchesIt(all: seq<Category>, main: int, child: Category)
    requires child in all && child.parent == main && child.id != 0
    ensures Decide(all, main, Some(child.id)) == Selection(Some(child.id), child.id)
  {
    assert child in ChildrenOf(all, main);
  }

  /** After a main click the sub is cleared, so main's first child, if any, is the category fetched. */
  lemma {:induction false} MainClickFetchesFirstChild(all: seq<Category>, main: int)
    ensures |ChildrenOf(all, main)| > 0 ==> Decide(all, main, None).toFetch == ChildrenOf(all, main)[0].id
    ensures |ChildrenOf(all, main)| == 0 ==> Decide(all, main, None) == Selection(None, main)
  {
  }
}
