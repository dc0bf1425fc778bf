/**
 * The product page (`ProductDetail`): which of skeleton, "not found" and the
 * product is shown, the breadcrumb, the related products and the content
 * of the selected tab.
 */
module DetailPage {
  import opened Js
  import opened Seqs
  import opened Catalog
  import opened Detail

  /**
   * `a === b` on the values of two different fetches. Primitives compare by
   * value; arrays and objects compare by identity, and an object of one
   * parsed response is never the object of another.
   */
  predicate StrictEquals(a: Value, b: Value) {
    a == b && !a.Arr? && !a.Obj?
  }

  /** The test `relatedProducts` filters with. */
  predicate IsRelated(p: Product, current: DetailProduct) {
    StrictEquals(p.category, current.category) && !StrictEquals(p.id, current.id)
  }

  function RelatedFilter(current: DetailProduct): Product -> bool {
    p => IsRelated(p, current)
  }

  /** `relatedProducts`: the qualifying catalogue products, cut to the first four. */
  function RelatedProducts(products: seq<Product>, current: DetailProduct): seq<Product> {
    Slice(Filter(products, RelatedFilter(current)), 0, 4)
  }

  /** One breadcrumb entry; a missing `current` is falsy. */
  datatype Crumb = Crumb(caption: Value, href: string, current: bool)

  /**
   * `breadcrumbItems`. A category that is not a string has no `charAt`, and
   * the render throws; the cleaned category is never nullish.
   */
  function Breadcrumb(product: DetailProduct): seq<Crumb>
    requires product.category.Str?
  {
    var cat := product.category.s;
    [Crumb(Str("Home"), "/", false),
     Crumb(Str("Products"), "/", false),
     Crumb(Str(Capitalize(cat)), "/?category=" + cat, false),
     Crumb(product.title, "#", true)]
  }

  /** The tab bodies `renderTabContent` chooses between. */
  datatype TabContent = ReviewsTab | DiscussionTab | DetailsTab

  /** `switch (activeTab)` */
  function TabFor(activeTab: string): TabContent {
    if activeTab == "reviews" then ReviewsTab
    else if activeTab == "discussion" then DiscussionTab
    else DetailsTab
  }

  /** `useState("details")` */
  const InitialTab := "details"

  const NotFoundText := "The product you're looking for doesn't exist."

  /** What the page renders. */
  datatype DetailView =
    | Skeleton
    | NotFound(message: string)
    | ProductView(product: DetailProduct, breadcrumb: seq<Crumb>, tab: TabContent, related: seq<Product>)

  /** `error` is truthy. */
  predicate HasError(error: Option<string>) {
    error.Some? && error.value != ""
  }

  /** Neither early return is taken. */
  predicate ShowsProduct(loading: bool, error: Option<string>, product: Option<DetailProduct>) {
    !loading && !HasError(error) && product.Some?
  }

  /**
   * The page for the detail hook's state, the catalogue's products and the
   * selected tab.
   */
  function View(loading: bool, error: Option<string>, product: Option<DetailProduct>,
                products: seq<Product>, activeTab: string): DetailView
    requires ShowsProduct(loading, error, product) ==> product.value.category.Str?
  {
    if loading then Skeleton
    else if HasError(error) || product.None? then NotFound(if HasError(error) then error.value else NotFoundText)
    else ProductView(product.value, Breadcrumb(product.value), TabFor(activeTab),
                     RelatedProducts(products, product.value))
  }

  /** `relatedProducts.length > 0`: the section is left out when nothing is related. */
  predicate ShowsRelated(view: DetailView) {
    view.ProductView? && |view.related| > 0
  }

  // ---------------------------------------------------------------------------
  // Properties

  /** Every related product shares the category and has another id. */
  lemma RelatedAreRelated(products: seq<Product>, current: DetailProduct, p: Product)
    requires p in RelatedProducts(products, current)
    ensures p.category == current.category && !p.category.Arr? && !p.category.Obj?
    ensures p.id != current.id || p.id.Arr? || p.id.Obj?
    ensures p in products
  {
    var f := Filter(products, RelatedFilter(current));
    SliceWithin(f, 0, 4);
    FilterMembership(products, RelatedFilter(current), p);
  }

  /**
   * The related products are the first four qualifying products, in the
   * order of the catalogue: a subsequence of it with at most 4 entries, and
   * with fewer than 4 they are every qualifying product.
   */
  lemma RelatedAreFirstFour(products: seq<Product>, current: DetailProduct)
    ensures var q := Filter(products, RelatedFilter(current));
      && RelatedProducts(products, current) == q[..Min(4, |q|)]
      && |RelatedProducts(products, current)| <= 4
      && IsSubsequence(RelatedProducts(products, current), products)
      && (|RelatedProducts(products, current)| < 4 ==>
            forall p :: p in products && IsRelated(p, current) ==> p in RelatedProducts(products, current))
  {
    var q := Filter(products, RelatedFilter(current));
    SliceWithin(q, 0, 4);
    assert RelatedProducts(products, current) == q[..Min(4, |q|)];
    FilterIsSubsequence(products, RelatedFilter(current));
    PrefixIsSubsequence(q, Min(4, |q|));
    SubsequenceTransitive(q[..Min(4, |q|)], q, products);
    if |q| < 4 {
      assert q[..Min(4, |q|)] == q;
      forall p | p in products && IsRelated(p, current)
        ensures p in q
      {
        FilterMembership(products, RelatedFilter(current), p);
      }
    }
  }

  /** The current product is never among its related products. */
  lemma RelatedExcludesCurrentId(products: seq<Product>, current: DetailProduct, p: Product)
    requires p in RelatedProducts(products, current)
    requires !current.id.Arr? && !current.id.Obj?
    ensures p.id != current.id
  {
    RelatedAreRelated(products, current, p);
  }

  /**
   * Four entries: Home and Products linking to `/`, the capitalised
   * category linking to the catalogue filtered by it, and the title, the
   * only current entry, linking to `#`.
   */
  lemma BreadcrumbSpec(product: DetailProduct)
    requires product.category.Str?
    ensures var b := Breadcrumb(product);
      var cat := product.category.s;
      && |b| == 4
      && b[0].caption == Str("Home") && b[0].href == "/"
      && b[1].caption == Str("Products") && b[1].href == "/"
      && b[2].href == "/?category=" + cat
      && b[2].caption.Str? && |b[2].caption.s| == |cat|
      && (cat != "" ==> b[2].caption.s[0] == UpperChar(cat[0]) && b[2].caption.s[1..] == cat[1..])
      && b[3].caption == product.title && b[3].href == "#"
      && (forall i :: 0 <= i < 4 ==> (b[i].current <==> i == 3))
  {
  }

  /**
   * Loading wins over everything; then an error or a missing product shows
   * "not found" with the error's text or the default sentence; only then
   * the product.
   */
  lemma ViewPriority(loading: bool, error: Option<string>, product: Option<DetailProduct>,
                     products: seq<Product>, activeTab: string)
    requires ShowsProduct(loading, error, product) ==> product.value.category.Str?
    ensures var v := View(loading, error, product, products, activeTab);
      && (v.Skeleton? <==> loading)
      && (v.NotFound? <==> !loading && (HasError(error) || product.None?))
      && (v.NotFound? ==> v.message != "" && (v.message == NotFoundText <==> !HasError(error) || error.value == NotFoundText))
      && (v.NotFound? && HasError(error) ==> v.message == error.value)
      && (v.ProductView? <==> ShowsProduct(loading, error, product))
      && (v.ProductView? ==> v.product == product.value)
  {
  }

  /**
   * After a failed fetch with no product held, the page shows the fetch's
   * error message as "not found".
   */
  lemma FailedFetchShowsMessage(outcome: Outcome, id: string, products: seq<Product>, activeTab: string)
    requires FetchDetail(outcome, id).DetailFailed?
    ensures var m := FetchDetail(outcome, id).message;
      m != "" && View(false, Some(m), None, products, activeTab) == NotFound(m)
  {
  }

  /** The tab shown is the one named, and anything unknown shows the details. */
  lemma TabSelection(activeTab: string)
    ensures TabFor(activeTab) == ReviewsTab <==> activeTab == "reviews"
    ensures TabFor(activeTab) == DiscussionTab <==> activeTab == "discussion"
    ensures TabFor(activeTab) == DetailsTab <==> activeTab !in {"reviews", "discussion"}
    ensures TabFor(InitialTab) == DetailsTab
  {
  }
}
