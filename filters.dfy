/**
 * The catalogue's filter engine (`useFilters`): a case-insensitive search
 * over four text fields, an exact category match and one of six sort rules,
 * applied in that order to a copy of the product list, together with the
 * three filter fields the engine keeps and the flags derived from them.
 */
module Filters {
  import opened Js
  import opened Seqs
  import opened Sorting

  /** `value && typeof value === "string" ? value : ""` */
  function SafeString(v: Value): (r: string)
    ensures v.Str? ==> r == v.s
    ensures !v.Str? ==> r == ""
  {
    if Truthy(v) && TypeOf(v) == "string" then v.s else ""
  }

  /** `!searchTerm || searchTerm.trim() === ""` */
  predicate IsBlank(term: string) {
    term == "" || Trim(term) == ""
  }

  /** `searchTerm.toLowerCase().trim()` */
  function Needle(term: string): string {
    Trim(ToLower(term))
  }

  /** `safeString(product[key]).toLowerCase().includes(needle)` */
  predicate FieldMatches(p: Value, key: string, needle: string) {
    Contains(ToLower(SafeString(Get(p, key))), needle)
  }

  /** The predicate `searchProducts` filters with. */
  predicate MatchesSearch(p: Value, needle: string) {
    && Truthy(p) && TypeOf(p) == "object"
    && (|| FieldMatches(p, "title", needle) || FieldMatches(p, "description", needle)
        || FieldMatches(p, "brand", needle) || FieldMatches(p, "category", needle))
  }

  function SearchFilter(needle: string): Value -> bool {
    p => MatchesSearch(p, needle)
  }

  /** `searchProducts(products, searchTerm)` */
  function SearchProducts(products: seq<Value>, term: string): seq<Value> {
    if IsBlank(term) then products
    else if |products| == 0 then []
    else Filter(products, SearchFilter(Needle(term)))
  }

  /** The predicate of the category step: `product && safeString(product.category) === selectedCategory`. */
  predicate InCategory(p: Value, category: string) {
    Truthy(p) && SafeString(Get(p, "category")) == category
  }

  function CategoryFilter(category: string): Value -> bool {
    p => InCategory(p, category)
  }

  /** The category step, skipped for `"all"`. */
  function CategoryStep(products: seq<Value>, category: string): seq<Value> {
    if category != "all" then Filter(products, CategoryFilter(category)) else products
  }

  // ---------------------------------------------------------------------------
  // Sort keys: each comparator of the `switch` as the key it orders by

  /** `typeof p?.price === "number" ? p.price : 0` */
  function PriceOf(p: Value): real {
    NumberOr(Get(p, "price"), 0.0)
  }

  /** `typeof p?.rating === "number" ? p.rating : 0` */
  function RatingOf(p: Value): real {
    NumberOr(Get(p, "rating"), 0.0)
  }

  /** `safeString(p?.title)` */
  function TitleOf(p: Value): string {
    SafeString(Get(p, "title"))
  }

  /** `(a, b) => priceA - priceB` */
  function PriceLowKey(): Value -> Rank {
    p => Rank(PriceOf(p), "")
  }

  /** `(a, b) => priceB - priceA` */
  function PriceHighKey(): Value -> Rank {
    p => Rank(-PriceOf(p), "")
  }

  /** `(a, b) => ratingB - ratingA` */
  function RatingKey(): Value -> Rank {
    p => Rank(-RatingOf(p), "")
  }

  /** `(a, b) => titleA.localeCompare(titleB)` */
  function NameKey(): Value -> Rank {
    p => Rank(0.0, TitleOf(p))
  }

  /** The title match the relevance comparator ranks by, with the untrimmed term. */
  predicate TitleHasTerm(p: Value, term: string) {
    Contains(ToLower(TitleOf(p)), ToLower(term))
  }

  /** Title matches first (`-1`/`1`), then `aTitle.localeCompare(bTitle)` on the lower-cased titles. */
  function RelevanceKey(term: string): Value -> Rank {
    p => Rank(if TitleHasTerm(p, term) then 0.0 else 1.0, ToLower(TitleOf(p)))
  }

  /** The `switch (sortBy)` on the filtered copy. */
  function SortProducts(products: seq<Value>, sortBy: string, term: string): seq<Value> {
    if sortBy == "price-low" then JsSort(products, PriceLowKey())
    else if sortBy == "price-high" then JsSort(products, PriceHighKey())
    else if sortBy == "rating" then JsSort(products, RatingKey())
    else if sortBy == "name" then JsSort(products, NameKey())
    else if sortBy == "relevance" && term != "" then JsSort(products, RelevanceKey(term))
    else products
  }

  /** The value of `filteredAndSortedProducts`. */
  function Derived(products: Value, term: string, category: string, sortBy: string): seq<Value> {
    if !products.Arr? then []
    else SortProducts(CategoryStep(SearchProducts(products.elems, term), category), sortBy, term)
  }

  /** `hasActiveFilters` */
  predicate HasActiveFilters(term: string, category: string, sortBy: string) {
    term != "" || category != "all" || sortBy != "default"
  }

  /** `hasSearchResults` */
  predicate HasSearchResults(products: Value, term: string, category: string, sortBy: string) {
    term != "" ==> |Derived(products, term, category, sortBy)| > 0
  }

  /** `searchResultsCount` */
  function SearchResultsCount(products: Value, term: string, category: string, sortBy: string): nat {
    if term != "" then |Derived(products, term, category, sortBy)|
    else if products.Arr? then |products.elems|
    else 0
  }

  /** The hook's state: the three filter fields. */
  class FilterState {
    var searchTerm: string
    var selectedCategory: string
    var sortBy: string

    constructor ()
      ensures searchTerm == "" && selectedCategory == "all" && sortBy == "default"
      ensures !HasActiveFilters(searchTerm, selectedCategory, sortBy)
    {
      searchTerm := "";
      selectedCategory := "all";
      sortBy := "default";
    }

    method SetSearchTerm(term: string)
      modifies this
      ensures searchTerm == term
      ensures selectedCategory == old(selectedCategory) && sortBy == old(sortBy)
    {
      searchTerm := term;
    }

    method SetSelectedCategory(category: string)
      modifies this
      ensures selectedCategory == category
      ensures searchTerm == old(searchTerm) && sortBy == old(sortBy)
    {
      selectedCategory := category;
    }

    method SetSortBy(key: string)
      modifies this
      ensures sortBy == key
      ensures searchTerm == old(searchTerm) && selectedCategory == old(selectedCategory)
    {
      sortBy := key;
    }

    /** `resetFilters`: all three fields back to their initial values. */
    method ResetFilters()
      modifies this
      ensures searchTerm == "" && selectedCategory == "all" && sortBy == "default"
      ensures !HasActiveFilters(searchTerm, selectedCategory, sortBy)
    {
      searchTerm := "";
      selectedCategory := "all";
      sortBy := "default";
    }

    /** `clearSearch`: only the search term changes. */
    method ClearSearch()
      modifies this
      ensures searchTerm == ""
      ensures selectedCategory == old(selectedCategory) && sortBy == old(sortBy)
    {
      searchTerm := "";
    }

    /**
     * The memo body: copy the array, then reassign the copy through the
     * search, the category step and the sort.
     */
    method FilteredAndSortedProducts(products: Value) returns (r: seq<Value>)
      ensures r == Derived(products, searchTerm, selectedCategory, sortBy)
    {
      if !products.Arr? {
        return [];
      }
      var filtered := products.elems;
      filtered := SearchProducts(filtered, searchTerm);
      if selectedCategory != "all" {
        filtered := Filter(filtered, CategoryFilter(selectedCategory));
      }
      if sortBy == "price-low" {
        filtered := JsSort(filtered, PriceLowKey());
      } else if sortBy == "price-high" {
        filtered := JsSort(filtered, PriceHighKey());
      } else if sortBy == "rating" {
        filtered := JsSort(filtered, RatingKey());
      } else if sortBy == "name" {
        filtered := JsSort(filtered, NameKey());
      } else if sortBy == "relevance" {
        if searchTerm != "" {
          filtered := JsSort(filtered, RelevanceKey(searchTerm));
        }
      }
      r := filtered;
    }
  }

  // ---------------------------------------------------------------------------
  // The search step

  /** A missing, empty or white-space-only term leaves the list as it is. */
  lemma SearchBlankIsIdentity(products: seq<Value>, term: string)
    requires IsBlank(term)
    ensures SearchProducts(products, term) == products
  {
  }

  /** A term that is not blank leaves a non-empty needle. */
  lemma NeedleNonEmpty(term: string)
    ensures !IsBlank(term) <==> Needle(term) != ""
  {
    TrimEmptyIffAllWhiteSpace(term);
    TrimEmptyIffAllWhiteSpace(ToLower(term));
    ToLowerKeepsWhiteSpace(term);
  }

  /**
   * With a term that is not blank, the search keeps, in their order, exactly
   * the object entries one of whose four text fields contains the needle, each
   * as often as it occurs.
   */
  lemma SearchSpec(products: seq<Value>, term: string, x: Value)
    requires !IsBlank(term)
    ensures IsSubsequence(SearchProducts(products, term), products)
    ensures x in SearchProducts(products, term) <==> x in products && MatchesSearch(x, Needle(term))
    ensures multiset(SearchProducts(products, term))[x] ==
      if MatchesSearch(x, Needle(term)) then multiset(products)[x] else 0
  {
    var f := SearchFilter(Needle(term));
    assert SearchProducts(products, term) == Filter(products, f);
    FilterIsSubsequence(products, f);
    FilterMembership(products, f, x);
    FilterMultiset(products, f, x);
  }

  /** An entry that is not an object never matches a term that is not blank. */
  lemma SearchSkipsNonObjects(p: Value, term: string)
    requires !IsBlank(term) && !p.Obj?
    ensures !MatchesSearch(p, Needle(term))
  {
    NeedleNonEmpty(term);
    var n := Needle(term);
    assert Get(p, "title") == Undefined;
    assert !Contains("", n);
  }

  // ---------------------------------------------------------------------------
  // The category step

  /** A category other than `"all"` keeps exactly the entries of that category, in order. */
  lemma CategorySpec(products: seq<Value>, category: string, x: Value)
    requires category != "all"
    ensures IsSubsequence(CategoryStep(products, category), products)
    ensures x in CategoryStep(products, category) <==> x in products && InCategory(x, category)
    ensures forall i :: 0 <= i < |CategoryStep(products, category)| ==>
      SafeString(Get(CategoryStep(products, category)[i], "category")) == category
  {
    FilterIsSubsequence(products, CategoryFilter(category));
    FilterMembership(products, CategoryFilter(category), x);
  }

  /** `"all"` applies no category filter. */
  lemma CategoryAllIsIdentity(products: seq<Value>)
    ensures CategoryStep(products, "all") == products
  {
  }

  // ---------------------------------------------------------------------------
  // The sort step

  /** Keys other than the five sort rules (`"default"` among them) keep the order. */
  lemma SortUnknownKeyIsIdentity(products: seq<Value>, sortBy: string, term: string)
    requires sortBy !in {"price-low", "price-high", "rating", "name", "relevance"}
    ensures SortProducts(products, sortBy, term) == products
  {
  }

  /** Every rule rearranges the list and never adds or drops an entry. */
  lemma SortProductsPermutes(products: seq<Value>, sortBy: string, term: string)
    ensures multiset(SortProducts(products, sortBy, term)) == multiset(products)
  {
    var k := Rank(0.0, "");
    if sortBy == "price-low" {
      JsSortSpec(products, PriceLowKey(), k);
    } else if sortBy == "price-high" {
      JsSortSpec(products, PriceHighKey(), k);
    } else if sortBy == "rating" {
      JsSortSpec(products, RatingKey(), k);
    } else if sortBy == "name" {
      JsSortSpec(products, NameKey(), k);
    } else if sortBy == "relevance" && term != "" {
      JsSortSpec(products, RelevanceKey(term), k);
    }
  }

  /**
   * `"price-low"`: a rearrangement whose defined entries come first in
   * non-decreasing price (non-numbers count as 0), followed by the
   * `undefined` ones.
   */
  lemma SortPriceLow(products: seq<Value>, term: string)
    ensures var r := SortProducts(products, "price-low", term);
      && multiset(r) == multiset(products)
      && (forall i, j :: 0 <= i < j < |Filter(products, IsDefined)| ==> PriceOf(r[i]) <= PriceOf(r[j]))
      && (forall i :: |Filter(products, IsDefined)| <= i < |r| ==> r[i] == Undefined)
  {
    JsSortSpec(products, PriceLowKey(), Rank(0.0, ""));
    SortedMajors(JsSort(products, PriceLowKey()), PriceLowKey(), |Filter(products, IsDefined)|);
  }

  /** `"price-high"`: as `"price-low"`, in non-increasing price. */
  lemma SortPriceHigh(products: seq<Value>, term: string)
    ensures var r := SortProducts(products, "price-high", term);
      && multiset(r) == multiset(products)
      && (forall i, j :: 0 <= i < j < |Filter(products, IsDefined)| ==> PriceOf(r[i]) >= PriceOf(r[j]))
      && (forall i :: |Filter(products, IsDefined)| <= i < |r| ==> r[i] == Undefined)
  {
    JsSortSpec(products, PriceHighKey(), Rank(0.0, ""));
    SortedMajors(JsSort(products, PriceHighKey()), PriceHighKey(), |Filter(products, IsDefined)|);
  }

  /**
   * On a list without `undefined` entries whose prices tell the products
   * apart, `"price-high"` is `"price-low"` back to front.
   */
  lemma PriceHighReversesPriceLow(products: seq<Value>, term: string)
    requires forall i :: 0 <= i < |products| ==> products[i] != Undefined
    requires forall x, y :: x in products && y in products && PriceOf(x) == PriceOf(y) ==> x == y
    ensures SortProducts(products, "price-high", term) == Reverse(SortProducts(products, "price-low", term))
  {
    var low := PriceLowKey();
    var high := PriceHighKey();
    JsSortAllDefined(products, low);
    JsSortAllDefined(products, high);
    var lo := SortByRank(products, low);
    var hi := SortByRank(products, high);
    SortPermutes(products, low);
    SortPermutes(products, high);
    SortSorts(products, low);
    SortSorts(products, high);
    var rv := Reverse(lo);
    ReverseMultiset(lo);
    forall i, j | 0 <= i < j < |rv|
      ensures RankLe(high(rv[i]), high(rv[j]))
    {
      assert RankLe(low(lo[|lo| - 1 - j]), low(lo[|lo| - 1 - i]));
    }
    forall x, y | x in hi && y in hi && high(x) == high(y)
      ensures x == y
    {
      assert x in multiset(products) && y in multiset(products);
    }
    SortedUnique(hi, rv, high);
  }

  /** `"rating"`: as `"price-low"`, in non-increasing rating. */
  lemma SortRating(products: seq<Value>, term: string)
    ensures var r := SortProducts(products, "rating", term);
      && multiset(r) == multiset(products)
      && (forall i, j :: 0 <= i < j < |Filter(products, IsDefined)| ==> RatingOf(r[i]) >= RatingOf(r[j]))
      && (forall i :: |Filter(products, IsDefined)| <= i < |r| ==> r[i] == Undefined)
  {
    JsSortSpec(products, RatingKey(), Rank(0.0, ""));
    SortedMajors(JsSort(products, RatingKey()), RatingKey(), |Filter(products, IsDefined)|);
  }

  /** `"name"`: as `"price-low"`, in title order. */
  lemma SortName(products: seq<Value>, term: string)
    ensures var r := SortProducts(products, "name", term);
      && multiset(r) == multiset(products)
      && (forall i, j :: 0 <= i < j < |Filter(products, IsDefined)| ==> StrLe(TitleOf(r[i]), TitleOf(r[j])))
      && (forall i :: |Filter(products, IsDefined)| <= i < |r| ==> r[i] == Undefined)
  {
    var r := JsSort(products, NameKey());
    var n := |Filter(products, IsDefined)|;
    JsSortSpec(products, NameKey(), Rank(0.0, ""));
    forall i, j | 0 <= i < j < n
      ensures StrLe(TitleOf(r[i]), TitleOf(r[j]))
    {
      assert RankLe(NameKey()(r[..n][i]), NameKey()(r[..n][j]));
    }
  }

  /**
   * Ties keep their input order under every rule: among the defined entries,
   * those with any one key appear in the order the input holds them.
   */
  lemma SortProductsStable(products: seq<Value>, sortBy: string, term: string, k: Rank)
    requires sortBy in {"price-low", "price-high", "rating", "name"} || (sortBy == "relevance" && term != "")
    ensures var r := SortProducts(products, sortBy, term); var key := SortKey(sortBy, term);
      WithKey(r[..|Filter(products, IsDefined)|], key, k) == WithKey(Filter(products, IsDefined), key, k)
  {
    JsSortSpec(products, SortKey(sortBy, term), k);
  }

  /** The key each sort rule orders by. */
  function SortKey(sortBy: string, term: string): Value -> Rank {
    if sortBy == "price-low" then PriceLowKey()
    else if sortBy == "price-high" then PriceHighKey()
    else if sortBy == "rating" then RatingKey()
    else if sortBy == "name" then NameKey()
    else RelevanceKey(term)
  }

  lemma SortedMajors(r: seq<Value>, key: Value -> Rank, n: nat)
    requires n <= |r| && SortedBy(r[..n], key)
    ensures forall i, j :: 0 <= i < j < n ==> key(r[i]).major <= key(r[j]).major
  {
    forall i, j | 0 <= i < j < n
      ensures key(r[i]).major <= key(r[j]).major
    {
      assert RankLe(key(r[..n][i]), key(r[..n][j]));
    }
  }

  /** `"relevance"` with an empty term leaves the order as it is. */
  lemma SortRelevanceNeedsTerm(products: seq<Value>)
    ensures SortProducts(products, "relevance", "") == products
  {
  }

  /**
   * `"relevance"` with a non-empty term: the defined entries whose lower-cased
   * title contains the lower-cased, untrimmed term come first; within each
   * group the lower-cased titles are in order.
   */
  lemma SortRelevance(products: seq<Value>, term: string)
    requires term != ""
    ensures var r := SortProducts(products, "relevance", term);
      var n := |Filter(products, IsDefined)|;
      && multiset(r) == multiset(products)
      && (forall i, j :: 0 <= i < j < n && TitleHasTerm(r[j], term) ==> TitleHasTerm(r[i], term))
      && (forall i, j :: 0 <= i < j < n && TitleHasTerm(r[i], term) == TitleHasTerm(r[j], term) ==>
            StrLe(ToLower(TitleOf(r[i])), ToLower(TitleOf(r[j]))))
      && (forall i :: n <= i < |r| ==> r[i] == Undefined)
  {
    var key := RelevanceKey(term);
    var r := SortProducts(products, "relevance", term);
    var n := |Filter(products, IsDefined)|;
    JsSortSpec(products, key, Rank(0.0, ""));
    assert SortedBy(r[..n], key);
    forall i, j | 0 <= i < j < n
      ensures TitleHasTerm(r[j], term) ==> TitleHasTerm(r[i], term)
      ensures TitleHasTerm(r[i], term) == TitleHasTerm(r[j], term) ==>
        StrLe(ToLower(TitleOf(r[i])), ToLower(TitleOf(r[j])))
    {
      assert RankLe(key(r[..n][i]), key(r[..n][j]));
    }
  }

  // ---------------------------------------------------------------------------
  // The whole pipeline

  /** A value that is not an array yields `[]`. */
  lemma DerivedOfNonArray(products: Value, term: string, category: string, sortBy: string)
    requires !products.Arr?
    ensures Derived(products, term, category, sortBy) == []
  {
  }

  /**
   * The derived list holds exactly the entries of the input that pass the
   * search (when the term is not blank) and the category step (unless it is
   * `"all"`), each as often as the input holds it.
   */
  lemma DerivedSpec(products: seq<Value>, term: string, category: string, sortBy: string, x: Value)
    ensures var r := Derived(Arr(products), term, category, sortBy);
      && multiset(r)[x] ==
        (if (IsBlank(term) || MatchesSearch(x, Needle(term))) && (category == "all" || InCategory(x, category))
         then multiset(products)[x] else 0)
      && (x in r <==> x in products && (IsBlank(term) || MatchesSearch(x, Needle(term)))
                                    && (category == "all" || InCategory(x, category)))
  {
    var s := SearchProducts(products, term);
    var c := CategoryStep(s, category);
    SortProductsPermutes(c, sortBy, term);
    if !IsBlank(term) {
      SearchSpec(products, term, x);
    }
    if category != "all" {
      FilterMultiset(s, CategoryFilter(category), x);
    }
  }

  /** With no search, category or sort, the derived list is the input array. */
  lemma DerivedWithoutFiltersIsIdentity(products: seq<Value>)
    ensures Derived(Arr(products), "", "all", "default") == products
  {
  }

  /** Without a sort rule the derived list is an order-preserving subsequence of the input. */
  lemma DerivedUnsortedIsSubsequence(products: seq<Value>, term: string, category: string)
    ensures IsSubsequence(Derived(Arr(products), term, category, "default"), products)
  {
    var s := SearchProducts(products, term);
    if IsBlank(term) {
      SubsequenceReflexive(products);
    } else {
      SearchSpec(products, term, Undefined);
    }
    if category != "all" {
      FilterIsSubsequence(s, CategoryFilter(category));
      SubsequenceTransitive(CategoryStep(s, category), s, products);
    }
  }

  /** Without a search term the count is the raw length, whatever the category. */
  lemma SearchResultsCountWithoutTerm(products: Value, category: string, sortBy: string)
    ensures SearchResultsCount(products, "", category, sortBy) == if products.Arr? then |products.elems| else 0
    ensures HasSearchResults(products, "", category, sortBy)
  {
  }

  /** With a search term the count is the length of the derived list, and it is positive iff there are results. */
  lemma SearchResultsCountWithTerm(products: Value, term: string, category: string, sortBy: string)
    requires term != ""
    ensures SearchResultsCount(products, term, category, sortBy) == |Derived(products, term, category, sortBy)|
    ensures HasSearchResults(products, term, category, sortBy) <==> SearchResultsCount(products, term, category, sortBy) > 0
  {
  }
}
