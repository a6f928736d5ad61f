/**
 * The public catalogue page: the active products, narrowed by category, condition
 * and a name search, optionally sorted by price, with the card's images and badge,
 * and the "add to cart" button.
 */
module Catalog {
  import opened Wrappers
  import opened Text
  import opened Seqs
  import opened Tables
  import opened CartStore

  // ---------------------------------------------------------------- loading

  function ActiveTest(): ProductRow -> bool {
    (p: ProductRow) => p.isActive
  }

  /** `.eq("is_active", true)`: only active products reach the page, in the table's order. */
  function ActiveRows(table: seq<ProductRow>): (r: seq<ProductRow>)
    ensures forall p :: p in r <==> p in table && p.isActive
    ensures IsSubsequence(r, table)
    ensures forall p :: multiset(r)[p] == if p.isActive then multiset(table)[p] else 0
  {
    FilterIsSubsequence(table, ActiveTest());
    FilterMultisets(table, ActiveTest());
    Filter(table, ActiveTest())
  }

  // ---------------------------------------------------------------- filters

  /** `if (catId)`: a category filter applies when one is chosen and it is not 0. */
  predicate CategoryChosen(catId: Option<int>) {
    catId.Some? && catId.value != 0
  }

  /** `if (condition)`: a condition filter applies when one is chosen and it is not "". */
  predicate ConditionChosen(condition: Option<string>) {
    condition.Some? && condition.value != ""
  }

  function CategoryTest(catId: Option<int>): ProductRow -> bool {
    (p: ProductRow) => !CategoryChosen(catId) || p.categoryId == catId.value
  }

  function ConditionTest(condition: Option<string>): ProductRow -> bool {
    (p: ProductRow) => !ConditionChosen(condition) || p.condition == condition.value
  }

  function SearchTest(text: string): ProductRow -> bool {
    (p: ProductRow) => !Truthy(text) || ContainsIgnoringCase(p.name, text)
  }

  /** A product passes every filter that is switched on. */
  predicate Matches(p: ProductRow, catId: Option<int>, condition: Option<string>, text: string) {
    CategoryTest(catId)(p) && ConditionTest(condition)(p) && SearchTest(text)(p)
  }

  function MatchesTest(catId: Option<int>, condition: Option<string>, text: string): ProductRow -> bool {
    (p: ProductRow) => Matches(p, catId, condition, text)
  }

  /**
   * The three filter steps of `applyFilters`, in the order the page applies them;
   * a step whose filter is off keeps every product.
   */
  function Filtered(all: seq<ProductRow>, catId: Option<int>, condition: Option<string>, text: string): seq<ProductRow> {
    var byCategory := if CategoryChosen(catId) then Filter(all, CategoryTest(catId)) else all;
    var byCondition := if ConditionChosen(condition) then Filter(byCategory, ConditionTest(condition)) else byCategory;
    if Truthy(text) then Filter(byCondition, SearchTest(text)) else byCondition
  }

  /** The chain of steps is one filter by all the switched-on tests together. */
  lemma FilteredIsOneFilter(all: seq<ProductRow>, catId: Option<int>, condition: Option<string>, text: string)
    ensures Filtered(all, catId, condition, text) == Filter(all, MatchesTest(catId, condition, text))
  {
    var cat := CategoryTest(catId);
    var cond := ConditionTest(condition);
    var search := SearchTest(text);
    var catCond := (p: ProductRow) => cat(p) && cond(p);
    var byCategory := if CategoryChosen(catId) then Filter(all, cat) else all;
    if !CategoryChosen(catId) {
      FilterKeepsAll(all, cat);
    }
    assert byCategory == Filter(all, cat);
    var byCondition := if ConditionChosen(condition) then Filter(byCategory, cond) else byCategory;
    if !ConditionChosen(condition) {
      FilterKeepsAll(byCategory, cond);
    }
    assert byCondition == Filter(byCategory, cond);
    FilterFilter(all, cat, cond, catCond);
    if !Truthy(text) {
      FilterKeepsAll(byCondition, search);
    }
    FilterFilter(all, catCond, search, MatchesTest(catId, condition, text));
  }

  /**
   * A product is listed exactly when it is loaded and passes every switched-on filter,
   * and the listed products keep their loaded order.
   */
  lemma FilteredMembers(all: seq<ProductRow>, catId: Option<int>, condition: Option<string>, text: string)
    ensures forall p :: p in Filtered(all, catId, condition, text) <==> p in all && Matches(p, catId, condition, text)
    ensures IsSubsequence(Filtered(all, catId, condition, text), all)
  {
    FilteredIsOneFilter(all, catId, condition, text);
    FilterIsSubsequence(all, MatchesTest(catId, condition, text));
  }

  /** With no category, no condition and an empty search, the page lists every loaded product. */
  lemma NoFilterListsAll(all: seq<ProductRow>)
    ensures Filtered(all, None, None, "") == all
  {
  }

  /** The search ignores letter case: typing the query in upper or lower case lists the same products. */
  lemma SearchIgnoresCase(all: seq<ProductRow>, catId: Option<int>, condition: Option<string>, text: string)
    ensures Filtered(all, catId, condition, Lower(text)) == Filtered(all, catId, condition, text)
  {
    LowerIdempotent(text);
    FilteredIsOneFilter(all, catId, condition, text);
    FilteredIsOneFilter(all, catId, condition, Lower(text));
    FilterSameTests(all, MatchesTest(catId, condition, Lower(text)), MatchesTest(catId, condition, text));
  }

  // ---------------------------------------------------------------- sorting

  /** The number the comparator of the chosen sort puts in ascending order. */
  function SortKey(p: ProductRow, descending: bool): int {
    if descending then -p.price else p.price
  }

  predicate SortedByKey(s: seq<ProductRow>, descending: bool) {
    forall i, j :: 0 <= i < j < |s| ==> SortKey(s[i], descending) <= SortKey(s[j], descending)
  }

  predicate PriceAscending(s: seq<ProductRow>) {
    forall i, j :: 0 <= i < j < |s| ==> s[i].price <= s[j].price
  }

  predicate PriceDescending(s: seq<ProductRow>) {
    forall i, j :: 0 <= i < j < |s| ==> s[i].price >= s[j].price
  }

  /** In ascending key order for the descending sort is in descending price order, and so on. */
  lemma SortedByKeyPrices(s: seq<ProductRow>, descending: bool)
    requires SortedByKey(s, descending)
    ensures !descending ==> PriceAscending(s)
    ensures descending ==> PriceDescending(s)
  {
  }

  /** `filtered.sort(comparator)` in place: prices in order and the same products. */
  method SortByPrice(a: array<ProductRow>, descending: bool)
    modifies a
    ensures SortedByKey(a[..], descending)
    ensures multiset(a[..]) == multiset(old(a[..]))
  {
    var i := 0;
    while i < a.Length
      invariant 0 <= i <= a.Length
      invariant SortedByKey(a[..i], descending)
      invariant multiset(a[..]) == multiset(old(a[..]))
    {
      InsertDown(a, i, descending);
      i := i + 1;
    }
    assert a[..a.Length] == a[..];
  }

  /**
   * Midway through moving the element at `j` down: `s[..i + 1]` is in key order
   * except that the moving element may still be out of place with what lies before it.
   */
  predicate Inserting(s: seq<ProductRow>, i: nat, j: nat, descending: bool) {
    j <= i < |s| &&
    (forall k, l :: 0 <= k < l <= i && k != j && l != j ==> SortKey(s[k], descending) <= SortKey(s[l], descending)) &&
    (forall l :: j < l <= i ==> SortKey(s[j], descending) <= SortKey(s[l], descending))
  }

  lemma InsertingStart(s: seq<ProductRow>, i: nat, descending: bool)
    requires i < |s| && SortedByKey(s[..i], descending)
    ensures Inserting(s, i, i, descending)
  {
    forall k, l | 0 <= k < l <= i && k != i && l != i
      ensures SortKey(s[k], descending) <= SortKey(s[l], descending)
    {
      assert s[k] == s[..i][k] && s[l] == s[..i][l];
    }
  }

  lemma InsertingStep(s: seq<ProductRow>, i: nat, j: nat, descending: bool)
    requires Inserting(s, i, j, descending) && j > 0
    requires SortKey(s[j - 1], descending) > SortKey(s[j], descending)
    ensures Inserting(s[j - 1 := s[j]][j := s[j - 1]], i, j - 1, descending)
  {
  }

  lemma InsertingDone(s: seq<ProductRow>, i: nat, j: nat, descending: bool)
    requires Inserting(s, i, j, descending)
    requires j == 0 || SortKey(s[j - 1], descending) <= SortKey(s[j], descending)
    ensures SortedByKey(s[..i + 1], descending)
  {
    forall k, l | 0 <= k < l <= i
      ensures SortKey(s[k], descending) <= SortKey(s[l], descending)
    {
      if l == j {
        assert k <= j - 1;
        if k < j - 1 {
          assert SortKey(s[k], descending) <= SortKey(s[j - 1], descending);
        }
      }
    }
  }

  /** One pass of the insertion sort: move `a[i]` down past the larger keys before it. */
  method InsertDown(a: array<ProductRow>, i: nat, descending: bool)
    requires i < a.Length && SortedByKey(a[..i], descending)
    modifies a
    ensures SortedByKey(a[..i + 1], descending)
    ensures multiset(a[..]) == multiset(old(a[..]))
  {
    InsertingStart(a[..], i, descending);
    var j: nat := i;
    while j > 0 && SortKey(a[j - 1], descending) > SortKey(a[j], descending)
      invariant Inserting(a[..], i, j, descending)
      invariant multiset(a[..]) == multiset(old(a[..]))
    {
      ghost var before := a[..];
      SwapMultiset(before, j - 1, j);
      InsertingStep(before, i, j, descending);
      a[j - 1], a[j] := a[j], a[j - 1];
      assert a[..] == before[j - 1 := before[j]][j := before[j - 1]];
      j := j - 1;
    }
    InsertingDone(a[..], i, j, descending);
  }

  /** Swapping two elements keeps the multiset. */
  lemma SwapMultiset(s: seq<ProductRow>, i: nat, j: nat)
    requires i < j < |s|
    ensures multiset(s[i := s[j]][j := s[i]]) == multiset(s)
  {
    var t := s[i := s[j]][j := s[i]];
    assert s == s[..i] + [s[i]] + s[i + 1..j] + [s[j]] + s[j + 1..];
    assert t == s[..i] + [s[j]] + s[i + 1..j] + [s[i]] + s[j + 1..];
  }

  /** A sorted copy of `s`, made the way `sort` works: in an array, in place. */
  method SortedCopy(s: seq<ProductRow>, descending: bool) returns (r: seq<ProductRow>)
    ensures SortedByKey(r, descending)
    ensures multiset(r) == multiset(s)
  {
    var a := new ProductRow[|s|](i requires 0 <= i < |s| => s[i]);
    assert a[..] == s;
    SortByPrice(a, descending);
    r := a[..];
  }

  /**
   * `applyFilters`: copy the loaded list, filter it step by step, then sort it in
   * place when the sort is "low" or "high" (any other value leaves the filtered order).
   */
  method ApplyFilters(all: seq<ProductRow>, catId: Option<int>, text: string, sortValue: string, condition: Option<string>)
    returns (shown: seq<ProductRow>)
    ensures sortValue != "low" && sortValue != "high" ==> shown == Filtered(all, catId, condition, text)
    ensures multiset(shown) == multiset(Filtered(all, catId, condition, text))
    ensures sortValue == "low" ==> PriceAscending(shown)
    ensures sortValue == "high" ==> PriceDescending(shown)
  {
    var filtered := all;
    if CategoryChosen(catId) {
      filtered := Filter(filtered, CategoryTest(catId));
    }
    if ConditionChosen(condition) {
      filtered := Filter(filtered, ConditionTest(condition));
    }
    if Truthy(text) {
      filtered := Filter(filtered, SearchTest(text));
    }
    assert filtered == Filtered(all, catId, condition, text);
    if sortValue == "low" || sortValue == "high" {
      shown := SortedCopy(filtered, sortValue == "high");
      SortedByKeyPrices(shown, sortValue == "high");
    } else {
      shown := filtered;
    }
  }

  // ---------------------------------------------------------------- the card

  /** `p.images?.[0] || p.image_url`: the first gallery image when there is a non-empty one. */
  function MainImage(p: ProductRow): (url: string)
    ensures url == p.imageUrl || (p.images.Some? && |p.images.value| > 0 && url == p.images.value[0] != "")
    ensures p.images.None? || p.images.value == [] ==> url == p.imageUrl
    ensures p.images.Some? && |p.images.value| > 0 && p.images.value[0] != "" ==> url == p.images.value[0]
    ensures p.images.Some? && |p.images.value| > 0 && p.images.value[0] == "" ==> url == p.imageUrl
  {
    if p.images.Some? && |p.images.value| > 0 && Truthy(p.images.value[0]) then p.images.value[0] else p.imageUrl
  }

  /** `p.images?.[1] || mainImg`: the second gallery image, else the main image. */
  function HoverImage(p: ProductRow): (url: string)
    ensures url == MainImage(p) || (p.images.Some? && |p.images.value| > 1 && url == p.images.value[1] != "")
    ensures p.images.None? || |p.images.value| < 2 ==> url == MainImage(p)
    ensures p.images.Some? && |p.images.value| > 1 && p.images.value[1] != "" ==> url == p.images.value[1]
    ensures p.images.Some? && |p.images.value| > 1 && p.images.value[1] == "" ==> url == MainImage(p)
  {
    if p.images.Some? && |p.images.value| > 1 && Truthy(p.images.value[1]) then p.images.value[1] else MainImage(p)
  }

  /** The card's corner badge. */
  function ConditionBadge(p: ProductRow): (badge: string)
    ensures badge == "CHAGUWA" <==> p.condition == "used"
    ensures badge == "NEW" <==> p.condition != "used"
  {
    if p.condition == "used" then "CHAGUWA" else "NEW"
  }

  /** What the card hands to `addToCart`: its main image, not always `image_url`. */
  function CartInfo(p: ProductRow): (info: ProductInfo)
    ensures info.id == p.id && info.name == p.name && info.price == p.price
    ensures info.imageUrl == MainImage(p)
  {
    ProductInfo(p.id, p.name, p.price, MainImage(p))
  }

  // ---------------------------------------------------------------- the page

  /**
   * The page's state: `allProducts` as loaded, `products` as shown, the chosen
   * filters, and `addedId`, the card showing "Added" until its timer fires.
   */
  class ProductsPage {
    var allProducts: seq<ProductRow>
    var products: seq<ProductRow>
    var activeCategory: Option<int>
    var activeCondition: Option<string>
    var search: string
    var sort: string
    var addedId: Option<string>

    constructor ()
      ensures allProducts == [] && products == [] && activeCategory == None && activeCondition == None
      ensures search == "" && sort == "" && addedId == None
    {
      allProducts := [];
      products := [];
      activeCategory := None;
      activeCondition := None;
      search := "";
      sort := "";
      addedId := None;
    }

    /** `loadProducts`: the active products, or none when the query fails (`data || []`). */
    method LoadProducts(table: seq<ProductRow>, queryOk: bool)
      modifies this
      ensures allProducts == products == (if queryOk then ActiveRows(table) else [])
      ensures activeCategory == old(activeCategory) && activeCondition == old(activeCondition)
      ensures search == old(search) && sort == old(sort) && addedId == old(addedId)
    {
      allProducts := if queryOk then ActiveRows(table) else [];
      products := allProducts;
    }

    /** `selectCategory`: remember the category and re-filter with the other current choices. */
    method SelectCategory(id: Option<int>)
      modifies this
      ensures activeCategory == id
      ensures multiset(products) == multiset(Filtered(allProducts, id, activeCondition, search))
      ensures sort != "low" && sort != "high" ==> products == Filtered(allProducts, id, activeCondition, search)
      ensures sort == "low" ==> PriceAscending(products)
      ensures sort == "high" ==> PriceDescending(products)
      ensures allProducts == old(allProducts) && activeCondition == old(activeCondition)
      ensures search == old(search) && sort == old(sort) && addedId == old(addedId)
    {
      activeCategory := id;
      products := ApplyFilters(allProducts, id, search, sort, activeCondition);
    }

    /** `selectCondition`: remember the condition and re-filter with the other current choices. */
    method SelectCondition(value: Option<string>)
      modifies this
      ensures activeCondition == value
      ensures multiset(products) == multiset(Filtered(allProducts, activeCategory, value, search))
      ensures sort != "low" && sort != "high" ==> products == Filtered(allProducts, activeCategory, value, search)
      ensures sort == "low" ==> PriceAscending(products)
      ensures sort == "high" ==> PriceDescending(products)
      ensures allProducts == old(allProducts) && activeCategory == old(activeCategory)
      ensures search == old(search) && sort == old(sort) && addedId == old(addedId)
    {
      activeCondition := value;
      products := ApplyFilters(allProducts, activeCategory, search, sort, value);
    }

    /** Typing in the search box: remember the text and re-filter. */
    method ChangeSearch(text: string)
      modifies this
      ensures search == text
      ensures multiset(products) == multiset(Filtered(allProducts, activeCategory, activeCondition, text))
      ensures sort != "low" && sort != "high" ==> products == Filtered(allProducts, activeCategory, activeCondition, text)
      ensures sort == "low" ==> PriceAscending(products)
      ensures sort == "high" ==> PriceDescending(products)
      ensures allProducts == old(allProducts) && activeCategory == old(activeCategory)
      ensures activeCondition == old(activeCondition) && sort == old(sort) && addedId == old(addedId)
    {
      search := text;
      products := ApplyFilters(allProducts, activeCategory, text, sort, activeCondition);
    }

    /** Choosing a sort: remember it and re-filter. */
    method ChangeSort(value: string)
      modifies this
      ensures sort == value
      ensures multiset(products) == multiset(Filtered(allProducts, activeCategory, activeCondition, search))
      ensures value != "low" && value != "high" ==> products == Filtered(allProducts, activeCategory, activeCondition, search)
      ensures value == "low" ==> PriceAscending(products)
      ensures value == "high" ==> PriceDescending(products)
      ensures allProducts == old(allProducts) && activeCategory == old(activeCategory)
      ensures activeCondition == old(activeCondition) && search == old(search) && addedId == old(addedId)
    {
      sort := value;
      products := ApplyFilters(allProducts, activeCategory, search, value, activeCondition);
    }

    /** `handleAdd`: put the product in the stored cart with its main image and flag its card. */
    method HandleAdd(p: ProductRow, cart: CartStorage)
      modifies this, cart
      ensures cart.saved == Added(old(cart.saved), CartInfo(p))
      ensures addedId == Some(p.id)
      ensures allProducts == old(allProducts) && products == old(products)
      ensures activeCategory == old(activeCategory) && activeCondition == old(activeCondition)
      ensures search == old(search) && sort == old(sort)
    {
      cart.AddToCart(CartInfo(p));
      addedId := Some(p.id);
    }

    /** The 800 ms timer `handleAdd` starts: the "Added" flag goes away. */
    method AddedTimerFired()
      modifies this
      ensures addedId == None
      ensures allProducts == old(allProducts) && products == old(products)
      ensures activeCategory == old(activeCategory) && activeCondition == old(activeCondition)
      ensures search == old(search) && sort == old(sort)
    {
      addedId := None;
    }
  }

  /** Adding a product from its card puts exactly one more unit in the cart. */
  lemma HandleAddUnits(cart: seq<CartItem>, p: ProductRow)
    ensures Units(Added(cart, CartInfo(p))) == Units(cart) + 1
  {
    AddedUnits(cart, CartInfo(p));
  }
}
