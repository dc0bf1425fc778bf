/**
 * The catalogue page (`Products`): the category and sort option lists, the
 * results line with its "filtered from" note, when the page control is
 * shown, the product grid, and the error view that replaces all of it.
 */
module ProductsPage {
  import opened Js
  import opened Seqs
  import opened Filters
  import opened Paging
  import opened PageControls
  import opened Catalog

  /** `ITEMS_PER_PAGE` */
  const ItemsPerPage: nat := 20

  /** The number of skeleton cards shown while loading. */
  const SkeletonCount: nat := 12

  /** One `{ value, label }` entry of a dropdown. */
  datatype DropdownOption = DropdownOption(value: Value, text: string)

  const AllCategories := DropdownOption(Str("all"), "All Categories")

  /**
   * The label of a category option: the first character upper-cased and the
   * rest with its first `-` turned into a space; "Unknown Category" for a
   * value that is not a non-empty string.
   */
  function CategoryLabel(cat: Value): string {
    if Truthy(cat) && TypeOf(cat) == "string" then
      ToUpper(cat.s[..1]) + ReplaceFirst(cat.s[1..], '-', ' ')
    else "Unknown Category"
  }

  /** `categoryOptions`: "All Categories" first, then one option per category. */
  function CategoryOptions(categories: Value): (r: seq<DropdownOption>)
    ensures |r| == 1 + (if categories.Arr? then |categories.elems| else 0)
    ensures r[0] == AllCategories
    ensures categories.Arr? ==> forall i :: 0 <= i < |categories.elems| ==>
      r[i + 1] == DropdownOption(categories.elems[i], CategoryLabel(categories.elems[i]))
  {
    [AllCategories] +
    if categories.Arr? then
      seq(|categories.elems|, i requires 0 <= i < |categories.elems| =>
        DropdownOption(categories.elems[i], CategoryLabel(categories.elems[i])))
    else []
  }

  /** The five sort options every search offers. */
  const FixedSortOptions: seq<DropdownOption> := [
    DropdownOption(Str("default"), "Default"),
    DropdownOption(Str("name"), "Name A-Z"),
    DropdownOption(Str("price-low"), "Price: Low to High"),
    DropdownOption(Str("price-high"), "Price: High to Low"),
    DropdownOption(Str("rating"), "Highest Rated")]

  const Relevance := DropdownOption(Str("relevance"), "Most Relevant")

  /** `sortOptions`: "Most Relevant" is added while there is a search term. */
  function SortOptions(term: string): seq<DropdownOption> {
    FixedSortOptions + if term != "" then [Relevance] else []
  }

  /** The condition around `<Pagination>`. */
  predicate ShowPagination(loading: bool, filteredCount: nat) {
    !loading && filteredCount > ItemsPerPage
  }

  /** The numbers of "Showing X of Y products", and N of "(filtered from N total)" when it is shown. */
  datatype ResultsInfo = ResultsInfo(shown: nat, matching: nat, filteredFrom: Option<nat>)

  /** The results line: absent while loading. */
  function ResultsLine(loading: bool, pageItems: seq<Value>, filtered: seq<Value>,
                       hasActiveFilters: bool, term: string, productCount: nat): Option<ResultsInfo>
  {
    if loading then None
    else Some(ResultsInfo(|pageItems|, |filtered|,
                          if hasActiveFilters && term == "" then Some(productCount) else None))
  }

  /** The text of the results line. */
  function ResultsText(info: ResultsInfo): string {
    "Showing " + NatToString(info.shown) + " of " + NatToString(info.matching) + " products"
    + FilteredNote(info.filteredFrom)
  }

  /** The `(filtered from N total)` note, or nothing. */
  function FilteredNote(filteredFrom: Option<nat>): string {
    match filteredFrom
    case None => ""
    case Some(n) => " (filtered from " + NatToString(n) + " total)"
  }

  /** The product grid. */
  datatype Grid =
    | Skeletons(count: nat)
    | Cards(products: seq<Value>)
    | NoProducts(message: string, browseAll: bool)

  /** Skeletons while loading, else the page's cards, else the empty message. */
  function GridFor(loading: bool, pageItems: seq<Value>, term: string): Grid {
    if loading then Skeletons(SkeletonCount)
    else if |pageItems| > 0 then Cards(pageItems)
    else if term != "" then NoProducts("No products found for \"" + term + "\"", true)
    else NoProducts("No products found", false)
  }

  /** What the page renders. */
  datatype CatalogueView =
    | ErrorView(message: string)
    | Listing(
        categoryOptions: seq<DropdownOption>,
        sortOptions: seq<DropdownOption>,
        showReset: bool,
        showBanner: bool,
        results: Option<ResultsInfo>,
        grid: Grid,
        showPagination: bool)

  /** The categories of the store as the array the page receives. */
  function CategoryValues(categories: seq<string>): (r: Value)
    ensures r.Arr? && |r.elems| == |categories|
    ensures forall i :: 0 <= i < |categories| ==> r.elems[i] == Str(categories[i])
  {
    Arr(seq(|categories|, i requires 0 <= i < |categories| => Str(categories[i])))
  }

  /**
   * The page for the products store's state, the three filter fields and the
   * paginator's current page.
   */
  function View(products: seq<Product>, loading: bool, error: Option<string>, categories: seq<string>,
                term: string, category: string, sortBy: string, currentPage: int): CatalogueView
  {
    var filtered := Derived(Arr(AsValues(products)), term, category, sortBy);
    var pageItems := PageItems(filtered, currentPage, ItemsPerPage);
    if error.Some? && error.value != "" then ErrorView(error.value)
    else Listing(
      CategoryOptions(CategoryValues(categories)),
      SortOptions(term),
      HasActiveFilters(term, category, sortBy),
      term == "",
      ResultsLine(loading, pageItems, filtered, HasActiveFilters(term, category, sortBy), term, |products|),
      GridFor(loading, pageItems, term),
      ShowPagination(loading, |filtered|))
  }

  /** The page control's `onPageChange={setCurrentPage}`: a click on an entry of the visible list. */
  method ClickPage(pager: Paginator<Value>, e: PageEntry)
    requires pager.Valid() && IsRendered(pager.Total())
    requires e in VisiblePages(pager.currentPage, pager.Total())
    modifies pager
    ensures pager.items == old(pager.items)
    ensures pager.currentPage == match OnPageClick(e) case Some(p) => p case None => old(pager.currentPage)
    ensures pager.Valid()
  {
    ClicksStayInRange(pager.currentPage, pager.Total(), e);
    var target := OnPageClick(e);
    match target {
      case Some(p) => pager.SetCurrentPage(p);
      case None =>
    }
  }

  /** The page control's previous arrow, through `setCurrentPage`. */
  method ClickPrevious(pager: Paginator<Value>)
    requires pager.Valid()
    modifies pager
    ensures pager.items == old(pager.items)
    ensures pager.currentPage == Prev(old(pager.currentPage))
    ensures pager.Valid()
  {
    var target := OnPrevious(pager.currentPage);
    match target {
      case Some(p) => pager.SetCurrentPage(p);
      case None =>
    }
  }

  /** The page control's next arrow, through `setCurrentPage`. */
  method ClickNext(pager: Paginator<Value>)
    requires pager.Valid()
    modifies pager
    ensures pager.items == old(pager.items)
    ensures pager.currentPage == Next(old(pager.currentPage), pager.Total())
    ensures pager.Valid()
  {
    var target := OnNext(pager.currentPage, pager.Total());
    match target {
      case Some(p) => pager.SetCurrentPage(p);
      case None =>
    }
  }

  // ---------------------------------------------------------------------------
  // Properties

  /**
   * The label of a non-empty string category has its length, starts with
   * its first character upper-cased, and agrees with it elsewhere except
   * that the first `-` after the first character reads as a space.
   */
  lemma CategoryLabelSpec(s: string)
    requires s != ""
    ensures var r := CategoryLabel(Str(s));
      && |r| == |s|
      && r[0] == UpperChar(s[0])
      && ('-' !in s[1..] ==> r[1..] == s[1..])
      && (forall k :: 1 <= k < |s| && s[k] == '-' && '-' !in s[1..k] ==>
            r[1..] == s[1..k] + [' '] + s[k + 1..])
  {
    var rest := s[1..];
    ReplaceFirstSpec(rest, '-', ' ');
    var r := CategoryLabel(Str(s));
    assert r == ToUpper(s[..1]) + ReplaceFirst(rest, '-', ' ');
    assert r[1..] == ReplaceFirst(rest, '-', ' ');
    forall k | 1 <= k < |s| && s[k] == '-' && '-' !in s[1..k]
      ensures r[1..] == s[1..k] + [' '] + s[k + 1..]
    {
      assert rest[k - 1] == '-';
      assert rest[..k - 1] == s[1..k];
      assert rest[k..] == s[k + 1..];
    }
  }

  /** Anything but a non-empty string is labelled "Unknown Category". */
  lemma UnknownCategoryLabel(cat: Value)
    requires !(cat.Str? && cat.s != "")
    ensures CategoryLabel(cat) == "Unknown Category"
  {
  }

  /**
   * For the store's categories the options after "All Categories" carry
   * exactly the non-empty string categories of the products, once each, in
   * the order of the list, every one with a non-default label.
   */
  lemma StoreCategoryOptions(products: seq<Product>)
    ensures var r := CategoryOptions(CategoryValues(UniqueCategories(products)));
      && r[0] == AllCategories
      && |r| == 1 + |UniqueCategories(products)|
      && (forall i :: 1 <= i < |r| ==> r[i].value == Str(UniqueCategories(products)[i - 1]))
      && (forall i, j :: 1 <= i < j < |r| ==> r[i].value != r[j].value)
      && (forall i :: 1 <= i < |r| ==> |r[i].text| == |UniqueCategories(products)[i - 1]|)
  {
    var u := UniqueCategories(products);
    var r := CategoryOptions(CategoryValues(u));
    UniqueCategoriesSpec(products, "");
    forall i | 1 <= i < |r|
      ensures |r[i].text| == |u[i - 1]|
    {
      DedupMembership(StringCategories(products), u[i - 1]);
      CategoryLabelSpec(u[i - 1]);
    }
  }

  /** The five fixed sort options come first, and "Most Relevant" is offered exactly while searching. */
  lemma SortOptionsSpec(term: string)
    ensures SortOptions(term)[..5] == FixedSortOptions
    ensures |SortOptions(term)| == if term != "" then 6 else 5
    ensures Relevance in SortOptions(term) <==> term != ""
  {
    assert Relevance !in FixedSortOptions;
  }

  /**
   * Every offered sort changes the order only by a rule `filteredAndSortedProducts`
   * knows: the fixed keys, and relevance only while there is a term to rank by.
   */
  lemma OfferedSortsAreKnown(term: string, o: DropdownOption)
    requires o in SortOptions(term)
    ensures o.value.Str?
    ensures o.value.s in {"default", "name", "price-low", "price-high", "rating", "relevance"}
    ensures o.value.s == "relevance" ==> term != ""
  {
  }

  /**
   * The page control is asked for exactly when it would draw itself: not
   * loading and more than one page of 20.
   */
  lemma PaginationShownIffSeveralPages(loading: bool, filteredCount: nat)
    ensures ShowPagination(loading, filteredCount) <==>
      !loading && IsRendered(TotalPages(filteredCount, ItemsPerPage))
  {
    var t := TotalPages(filteredCount, ItemsPerPage);
    if filteredCount > ItemsPerPage {
      assert t * 20 >= filteredCount;
      assert t >= 2;
    } else {
      assert filteredCount > 0 ==> (t - 1) * 20 < filteredCount;
      assert t <= 1;
    }
  }

  /** The derived list is no longer than the products it comes from. */
  lemma DerivedLength(products: seq<Value>, term: string, category: string, sortBy: string)
    ensures |Derived(Arr(products), term, category, sortBy)| <= |products|
  {
    var s := SearchProducts(products, term);
    var c := CategoryStep(s, category);
    SortProductsPermutes(c, sortBy, term);
    assert |multiset(SortProducts(c, sortBy, term))| == |multiset(c)|;
  }

  /** An error, and only an error, replaces the catalogue with its message. */
  lemma ErrorReplacesCatalogue(products: seq<Product>, loading: bool, error: Option<string>, categories: seq<string>,
                               term: string, category: string, sortBy: string, currentPage: int)
    ensures View(products, loading, error, categories, term, category, sortBy, currentPage).ErrorView?
      <==> error.Some? && error.value != ""
    ensures error.Some? && error.value != "" ==>
      View(products, loading, error, categories, term, category, sortBy, currentPage) == ErrorView(error.value)
  {
  }

  /**
   * The results line, shown once loading is over: X is at most 20 and at most
   * Y, Y is at most the number of products, and "(filtered from N total)"
   * with N the number of products appears exactly when a filter is active
   * and there is no search term.
   */
  lemma ResultsLineSpec(products: seq<Product>, loading: bool, error: Option<string>, categories: seq<string>,
                        term: string, category: string, sortBy: string, currentPage: int)
    requires currentPage >= 1
    requires !(error.Some? && error.value != "")
    ensures var v := View(products, loading, error, categories, term, category, sortBy, currentPage);
      && (v.results.Some? <==> !loading)
      && (v.results.Some? ==>
            && v.results.value.shown <= ItemsPerPage
            && v.results.value.shown <= v.results.value.matching <= |products|
            && (v.results.value.filteredFrom.Some? <==> HasActiveFilters(term, category, sortBy) && term == "")
            && (v.results.value.filteredFrom.Some? ==> v.results.value.filteredFrom.value == |products|))
  {
    var filtered := Derived(Arr(AsValues(products)), term, category, sortBy);
    PageItemsSpec(filtered, currentPage, ItemsPerPage);
    DerivedLength(AsValues(products), term, category, sortBy);
  }

  /**
   * Once loaded, the grid shows the current page of the filtered and sorted
   * list: at most 20 catalogue products, each matching the search and the
   * category; with nothing to show, the search term names the empty result.
   */
  lemma GridSpec(products: seq<Product>, error: Option<string>, categories: seq<string>,
                 term: string, category: string, sortBy: string, currentPage: int)
    requires currentPage >= 1
    requires !(error.Some? && error.value != "")
    ensures var v := View(products, false, error, categories, term, category, sortBy, currentPage);
      && (v.grid.Cards? ==>
            && |v.grid.products| <= ItemsPerPage
            && forall x :: x in v.grid.products ==>
                 && x in AsValues(products)
                 && (IsBlank(term) || MatchesSearch(x, Needle(term)))
                 && (category == "all" || InCategory(x, category)))
      && (v.grid.NoProducts? ==> (v.grid.browseAll <==> term != ""))
      && (var page := PageItems(Derived(Arr(AsValues(products)), term, category, sortBy), currentPage, ItemsPerPage);
          && (v.grid.Cards? <==> |page| > 0)
          && (v.grid.Cards? ==> v.grid.products == page)
          && (!v.grid.Cards? ==> v.grid.NoProducts?))
  {
    var filtered := Derived(Arr(AsValues(products)), term, category, sortBy);
    var page := PageItems(filtered, currentPage, ItemsPerPage);
    PageItemsSpec(filtered, currentPage, ItemsPerPage);
    forall x | x in page
      ensures x in AsValues(products)
      ensures IsBlank(term) || MatchesSearch(x, Needle(term))
      ensures category == "all" || InCategory(x, category)
    {
      PageItemsMembership(filtered, currentPage, x);
      DerivedSpec(AsValues(products), term, category, sortBy, x);
    }
  }

  lemma PageItemsMembership(items: seq<Value>, page: int, x: Value)
    requires page >= 1
    requires x in PageItems(items, page, ItemsPerPage)
    ensures x in items
  {
    PageItemsSpec(items, page, ItemsPerPage);
  }

  /** While loading the grid is twelve skeletons and neither the results line nor the page control is shown. */
  lemma LoadingView(products: seq<Product>, error: Option<string>, categories: seq<string>,
                    term: string, category: string, sortBy: string, currentPage: int)
    requires !(error.Some? && error.value != "")
    ensures var v := View(products, true, error, categories, term, category, sortBy, currentPage);
      v.grid == Skeletons(12) && v.results.None? && !v.showPagination
  {
  }

  /**
   * The line can be read back: two different results states never render
   * the same text, so it tells the shown count, the matching count and the
   * filtered-from total apart.
   */
  lemma ResultsTextInjective(x: ResultsInfo, y: ResultsInfo)
    ensures ResultsText(x) == ResultsText(y) ==> x == y
  {
    if ResultsText(x) == ResultsText(y) {
      ResultsTextSplit(x);
      ResultsTextSplit(y);
      DropPrefix("Showing ", NatToString(x.shown) + AfterShown(x), NatToString(y.shown) + AfterShown(y));
      NumberThenText(x.shown, y.shown, AfterShown(x), AfterShown(y));
      DropPrefix(" of ", NatToString(x.matching) + AfterMatching(x), NatToString(y.matching) + AfterMatching(y));
      NumberThenText(x.matching, y.matching, AfterMatching(x), AfterMatching(y));
      DropPrefix(" products", FilteredNote(x.filteredFrom), FilteredNote(y.filteredFrom));
      FilteredNoteInjective(x.filteredFrom, y.filteredFrom);
    }
  }

  /** The text after the shown count. */
  function AfterShown(info: ResultsInfo): string {
    " of " + (NatToString(info.matching) + AfterMatching(info))
  }

  /** The text after the matching count. */
  function AfterMatching(info: ResultsInfo): string {
    " products" + FilteredNote(info.filteredFrom)
  }

  lemma ResultsTextSplit(info: ResultsInfo)
    ensures ResultsText(info) == "Showing " + (NatToString(info.shown) + AfterShown(info))
    ensures AfterShown(info) != [] && !IsDigit(AfterShown(info)[0])
    ensures AfterMatching(info) != [] && !IsDigit(AfterMatching(info)[0])
  {
  }

  lemma DropPrefix(p: string, u: string, v: string)
    requires p + u == p + v
    ensures u == v
  {
    assert u == (p + u)[|p|..] && v == (p + v)[|p|..];
  }

  lemma FilteredNoteInjective(a: Option<nat>, b: Option<nat>)
    ensures FilteredNote(a) == FilteredNote(b) ==> a == b
  {
    if FilteredNote(a) == FilteredNote(b) && a.Some? && b.Some? {
      assert FilteredNote(a) == " (filtered from " + (NatToString(a.value) + " total)");
      assert FilteredNote(b) == " (filtered from " + (NatToString(b.value) + " total)");
      DropPrefix(" (filtered from ", NatToString(a.value) + " total)", NatToString(b.value) + " total)");
      NumberThenText(a.value, b.value, " total)", " total)");
    }
  }
}
