# Product catalogue: a Dafny model of its list pipeline and derived data

The catalogue is a React storefront. It fetches up to a hundred products from a JSON API and cleans each record into a fully defaulted one. The catalogue page lets the shopper do three things, in this order:

- search the title, description, brand and category;
- narrow the list to one category;
- sort by price, rating, name or relevance.

The result is then shown twenty per page under a `1 … window … last` page control. A product page shows one product with these parts:

- a breadcrumb;
- a quantity stepper bounded by the stock;
- a stock status;
- up to four related products;
- a review panel with its own sort, pages of five and a star histogram.

This project models that logic in Dafny and proves what the code promises about it. One module per source area:

| module | file | models |
|---|---|---|
| `Js` | `js.dfy` | the JavaScript values the code handles and the built-ins it uses: truthiness, `\|\|`, `typeof`, property reads, `trim`, `toLowerCase`/`toUpperCase` (ASCII), `includes`, `slice`, one-character `replace`, decimal rendering of integers |
| `Seqs` | `seqs.dfy` | `filter`, subsequences, duplicate-free lists, `Array.from(new Set(...))` (insertion-order de-duplication) |
| `Sorting` | `sorting.dfy` | `Array.prototype.sort` as a stable insertion sort by a key, with `undefined` elements moved to the end |
| `Filters` | `filters.dfy` | `src/hooks/useFilters.js` |
| `Paging` | `paging.dfy` | `src/hooks/usePagination.js` |
| `PageControls` | `pagecontrols.dfy` | `src/components/Pagination.jsx` |
| `Catalog` | `catalog.dfy` | `src/hooks/useProducts.js` |
| `Detail` | `detail.dfy` | `src/hooks/useProductDetail.js` |
| `Reviews` | `reviews.dfy` | `src/components/ProductReviews.jsx` |
| `Info` | `info.dfy` | `src/components/ProductInfo.jsx` |
| `ProductsPage` | `productspage.dfy` | `src/pages/Products.jsx` |
| `DetailPage` | `detailpage.dfy` | `src/pages/ProductDetail.jsx` |

Hook state becomes a class whose methods change its fields: `FilterState`, `Paginator`, `ProductsStore`, `DetailStore`, `ReviewsState`, `QuantityStepper`.

- Each method's `ensures` gives the whole new state in terms of the old one.
- The derived values are functions of that state, and lemmas prove the properties about those functions.
- Two loops in the source become loops in the model: the window loop of `getVisiblePages` and the `ratingCounts` loop. Each keeps its invariants.

Where the documentation and the code differ, the model follows the code:

- `totalPages` is `Math.ceil(n / perPage)`, which is 0 for an empty list, not 1 (`Paging.TotalPages`). The paginator's range is therefore `1..max(1, totalPages)`.
- The relevance sort tests the title against the lower-cased but untrimmed search term. The search filter uses the trimmed term (`Filters.RelevanceKey`, `Filters.Needle`).
- `searchResultsCount` without a search term is the length of the raw list. It ignores the category filter (`Filters.SearchResultsCountWithoutTerm`).
- A negative stock reads "Out of Stock", yet the cart buttons stay enabled, since they are disabled only at `stock === 0` (`Info.CartDisabled`, `Info.Status`).

## Model

| member | source | states |
|---|---|---|
| Js.TrimEmptyIffAllWhiteSpace | src/hooks/useFilters.js:17 | `trim()` is empty exactly when every character is JavaScript white space |
| Js.ToLowerKeepsWhiteSpace | src/hooks/useFilters.js:25 | lower-casing neither creates nor removes white space, so the order of `toLowerCase` and `trim` does not matter for blankness |
| Js.ContainsAt | src/hooks/useFilters.js:36 | `includes` holds exactly when the needle occurs at some position |
| Js.NatToStringRoundTrip | src/hooks/useProducts.js:19 | the decimal rendering of a status consists of digits and reads back as the same number |
| Js.NatToStringInjective | src/hooks/useProducts.js:19 | different numbers render differently |
| Js.ReplaceFirstSpec | src/pages/Products.jsx:48 | a one-character `replace` keeps the length, returns the string unchanged when the character is absent, and otherwise rewrites exactly its first occurrence |
| Js.SliceWithin | src/hooks/usePagination.js:12 | for non-negative bounds, `slice` is the contiguous run from `begin` to `min(end, length)` |
| Sorting.SortPermutes | src/hooks/useFilters.js:83-134 | the sort returns a rearrangement of its input |
| Sorting.SortSorts | src/hooks/useFilters.js:83-134 | the result is in comparator order |
| Sorting.SortStable | src/hooks/useFilters.js:83-134 | elements that compare equal keep their input order |
| Sorting.SortOfSorted | src/hooks/useFilters.js:83-134 | a list already in order is returned unchanged |
| Sorting.SortByConstant | src/components/ProductReviews.jsx:45-46 | a comparator that always answers 0 leaves the order alone |
| Sorting.SortIdempotent | src/hooks/useFilters.js:83-134 | sorting twice gives the same list as sorting once |
| Sorting.SortedUnique | src/hooks/useFilters.js:83-134 | when the key tells every element apart, there is only one sorted rearrangement |
| Sorting.JsSortSpec | src/hooks/useFilters.js:85-129 | `Array.prototype.sort` permutes the list: the defined elements come first in comparator order and stable, the `undefined` ones after them |
| Sorting.JsSortAllDefined | src/hooks/useFilters.js:85-129 | without `undefined` elements the sort is the plain stable sort |
| Filters.SafeString | src/hooks/useFilters.js:11-13 | a string is returned as it is, any other value becomes `""` |
| Filters.SearchBlankIsIdentity | src/hooks/useFilters.js:16-19 | a missing, empty or white-space-only term returns the list unchanged |
| Filters.NeedleNonEmpty | src/hooks/useFilters.js:17-25 | the term is non-blank exactly when its lower-cased, trimmed form is non-empty |
| Filters.SearchSpec | src/hooks/useFilters.js:21-60 | with a non-blank term the result is an order-preserving subsequence of the input; an entry is kept, as often as it occurs, exactly when it is an object whose title, description, brand or category contains the term |
| Filters.SearchSkipsNonObjects | src/hooks/useFilters.js:29-31 | an entry that is not an object never matches |
| Filters.CategorySpec | src/hooks/useFilters.js:76-80 | for a category other than `"all"` the step is a subsequence of the input, keeps exactly the entries whose category is that exact string, and every result carries that category |
| Filters.CategoryAllIsIdentity | src/hooks/useFilters.js:76 | `"all"` applies no category filter |
| Filters.SortProductsPermutes | src/hooks/useFilters.js:83-134 | every sort key gives a rearrangement of the filtered list |
| Filters.SortPriceLow | src/hooks/useFilters.js:84-90 | `price-low` orders by non-decreasing price, with non-numbers counted as 0, and puts `undefined` entries last |
| Filters.SortPriceHigh | src/hooks/useFilters.js:91-97 | `price-high` orders by non-increasing price |
| Filters.PriceHighReversesPriceLow | src/hooks/useFilters.js:84-97 | with no `undefined` entry and prices that tell the products apart, `price-high` is `price-low` reversed |
| Filters.SortRating | src/hooks/useFilters.js:98-104 | `rating` orders by non-increasing rating |
| Filters.SortName | src/hooks/useFilters.js:105-111 | `name` orders by title |
| Filters.SortProductsStable | src/hooks/useFilters.js:83-131 | under every sorting key, products that compare equal keep their input order |
| Filters.SortUnknownKeyIsIdentity | src/hooks/useFilters.js:132-134 | `default` and any unknown key leave the order unchanged |
| Filters.SortRelevanceNeedsTerm | src/hooks/useFilters.js:112-114 | `relevance` without a search term does nothing |
| Filters.SortRelevance | src/hooks/useFilters.js:112-131 | `relevance` puts every title containing the untrimmed lower-cased term before every title that does not, and orders each group by lower-cased title |
| Filters.DerivedOfNonArray | src/hooks/useFilters.js:65-67 | a non-array input yields `[]` |
| Filters.DerivedSpec | src/hooks/useFilters.js:63-141 | an entry occurs in the result, as often as in the input, exactly when it passes the search and the category |
| Filters.DerivedWithoutFiltersIsIdentity | src/hooks/useFilters.js:69-136 | with no term, category `"all"` and sort `default` the result is the input list |
| Filters.DerivedUnsortedIsSubsequence | src/hooks/useFilters.js:69-80 | without a sort the result is an order-preserving subsequence of the input |
| Filters.SearchResultsCountWithoutTerm | src/hooks/useFilters.js:156-163 | without a term the count is the raw length, or 0 when `products` is not an array, and `hasSearchResults` is true |
| Filters.SearchResultsCountWithTerm | src/hooks/useFilters.js:156-163 | with a term the count is the derived length, and `hasSearchResults` holds exactly when it is positive |
| Filters.FilterState.constructor | src/hooks/useFilters.js:6-8 | the fields start as `""`, `"all"`, `"default"`, with no active filter |
| Filters.FilterState.SetSearchTerm | src/hooks/useFilters.js:6 | sets the term and leaves the other two fields alone |
| Filters.FilterState.SetSelectedCategory | src/hooks/useFilters.js:7 | sets the category and leaves the other two fields alone |
| Filters.FilterState.SetSortBy | src/hooks/useFilters.js:8 | sets the sort key and leaves the other two fields alone |
| Filters.FilterState.ResetFilters | src/hooks/useFilters.js:143-147 | restores `("", "all", "default")`, after which `hasActiveFilters` is false |
| Filters.FilterState.ClearSearch | src/hooks/useFilters.js:149-151 | empties the term and changes nothing else |
| Filters.FilterState.FilteredAndSortedProducts | src/hooks/useFilters.js:63-141 | the step-by-step copy, filter and sort of the memo computes the derived list |
| Paging.TotalPages | src/hooks/usePagination.js:8 | `ceil(n / perPage)`: 0 exactly for no items, enough pages to hold them all, and no page beyond the last one used |
| Paging.GoTo | src/hooks/usePagination.js:20-24 | a requested page in `1..totalPages` is taken, any other request leaves the current page, and the range is kept |
| Paging.Next | src/hooks/usePagination.js:26-30 | the page moves by one or not at all, and stays in range |
| Paging.Prev | src/hooks/usePagination.js:32-36 | the page moves back by one or not at all, and never below 1 |
| Paging.AfterItemsChange | src/hooks/usePagination.js:15-18 | a change of length resets the page to 1; otherwise the page stays |
| Paging.Paginator.constructor | src/hooks/usePagination.js:5-6 | the page starts at 1, in range |
| Paging.Paginator.GoToPage | src/hooks/usePagination.js:20-24 | the guarded jump keeps `1 <= currentPage <= max(1, totalPages)` |
| Paging.Paginator.GoToNextPage | src/hooks/usePagination.js:26-30 | increments only below the last page, keeping the range |
| Paging.Paginator.GoToPrevPage | src/hooks/usePagination.js:32-36 | decrements only above page 1, keeping the range |
| Paging.Paginator.SetCurrentPage | src/hooks/usePagination.js:45 | the unguarded setter handed to callers sets the page and nothing else |
| Paging.Paginator.SetItems | src/hooks/usePagination.js:15-18 | the items are replaced, the page resets to 1 exactly when the length changes, and the range is kept |
| Paging.PageItemsSpec | src/hooks/usePagination.js:10-13 | a page is the contiguous slice from `(page - 1) * perPage`, of length `min(perPage, max(0, n - start))` |
| Paging.PageItemsBounded | src/hooks/usePagination.js:10-13 | a page holds at most `perPage` items |
| Paging.FirstPagesPrefix | src/hooks/usePagination.js:10-13 | pages `1..k` laid end to end are the first `k * perPage` items |
| Paging.PagesReconstruct | src/hooks/usePagination.js:8-13 | pages `1..totalPages` laid end to end are exactly the items |
| Paging.TwentyFiveAtTwenty | src/hooks/usePagination.js:8-13 | 25 items at 20 per page give two pages, of 20 and of 5 items |
| Paging.FlagsMatchMoves | src/hooks/usePagination.js:26-36 | `hasNextPage` and `hasPrevPage` hold exactly when the next and the previous move change the page (lines 46-47) |
| PageControls.Run | src/components/Pagination.jsx:11-17 | the window is the pages `lo..hi` in order |
| PageControls.GetVisiblePages | src/components/Pagination.jsx:6-34 | the loop and the pushes build `1`, an optional `"..."`, the window, then an optional `"..."` and the last page |
| PageControls.OnPageClick | src/components/Pagination.jsx:38-42 | a number is passed on, an ellipsis emits nothing |
| PageControls.OnPrevious | src/components/Pagination.jsx:44-48 | emits `current - 1` exactly when `current > 1` |
| PageControls.OnNext | src/components/Pagination.jsx:50-54 | emits `current + 1` exactly when `current < total` |
| PageControls.StartsWithFirstPage | src/components/Pagination.jsx:19-23 | the list starts with page 1 |
| PageControls.LeadingEllipsis | src/components/Pagination.jsx:11-23 | `"..."` follows page 1 exactly when `current - 2 > 2`, and page 2 is then left out |
| PageControls.TrailingEntries | src/components/Pagination.jsx:11-31 | the list ends with `"...", total` exactly when `current + 2 < total - 1`, leaving out page `total - 1`; otherwise it ends with `total` when there are two or more pages |
| PageControls.MiddleRun | src/components/Pagination.jsx:11-25 | a page strictly between the first and the last is shown exactly when it lies in `max(2, cur - 2)..min(total - 1, cur + 2)` |
| PageControls.VisiblePagesShape | src/components/Pagination.jsx:6-34 | for `1 <= cur <= total` and `total >= 2`, the numbers are strictly increasing, lie in `1..total`, include 1, `cur` and `total`, and the list has at most 9 entries |
| PageControls.ClicksStayInRange | src/components/Pagination.jsx:38-54 | every button emits a page in `1..total` |
| PageControls.ArrowsDisabledIffSilent | src/components/Pagination.jsx:44-63 | the previous arrow is disabled exactly when its handler emits nothing, and likewise the next arrow (line 97) |
| Catalog.ErrorText | src/hooks/useProducts.js:61 | `err.message \|\| fallback` is never empty and is the message when there is one |
| Catalog.CleanAll | src/hooks/useProducts.js:30-47 | cleaning keeps length and order: one cleaned record per raw record, at its index |
| Catalog.FirstNullish | src/hooks/useProducts.js:30-31 | the record whose `product.id` read throws is the first nullish one |
| Catalog.StringCategories | src/hooks/useProducts.js:54-56 | only non-empty string categories survive the filter |
| Catalog.CleanProductDefaults | src/hooks/useProducts.js:31-46 | the id is the raw id when truthy, else the index; the text fields fall back to fixed placeholders; numbers are the raw number or 0; `images` is the raw array, or else `[thumbnail]` |
| Catalog.CleanProductFixpoint | src/hooks/useProducts.js:30-47 | cleaning a cleaned record at its index changes nothing |
| Catalog.CleanProductIdAtZero | src/hooks/useProducts.js:31 | the record at index 0 without an id gets the falsy id 0, which a second cleaning at another index replaces |
| Catalog.StringCategoriesMembership | src/hooks/useProducts.js:54-56 | a string is collected exactly when it is the non-empty string category of some product |
| Catalog.UniqueCategoriesSpec | src/hooks/useProducts.js:51-58 | `categories` is duplicate-free, in first-occurrence order, and holds exactly the non-empty string categories |
| Catalog.HttpFailure | src/hooks/useProducts.js:18-20 | a non-ok response fails with `"HTTP error! status: <status>"` |
| Catalog.InvalidFormatFailure | src/hooks/useProducts.js:25-27 | a body without an array `products` fails with `"Invalid response format from API"` |
| Catalog.LoadedSpec | src/hooks/useProducts.js:22-59 | only an ok JSON body loads, and it yields the cleaned records and their unique categories |
| Catalog.FailureMessageNonEmpty | src/hooks/useProducts.js:60-61 | every failure has a non-empty message |
| Catalog.HttpErrorMessageInjective | src/hooks/useProducts.js:19 | the message tells the status apart |
| Catalog.ProductsStore.constructor | src/hooks/useProducts.js:6-9 | no products or categories, no error, loading |
| Catalog.ProductsStore.StartFetch | src/hooks/useProducts.js:12-13 | loading true and the error cleared, the data untouched |
| Catalog.ProductsStore.FinishFetch | src/hooks/useProducts.js:15-69 | success stores the products and categories; failure stores the message and empties both lists; loading ends either way |
| Catalog.ProductsStore.Fetch | src/hooks/useProducts.js:11-70 | a whole fetch: the state afterwards is the one its outcome determines, with loading false |
| Detail.DetailImagesNonEmpty | src/hooks/useProductDetail.js:37-41 | `images` is never empty: the raw array when it is a non-empty array, else `[thumbnail or placeholder]` |
| Detail.DetailDefaults | src/hooks/useProductDetail.js:24-51 | reviews are the raw array or `[]`; the id falls back to the requested id; the minimum order falls back to 1; each text field is the raw value when truthy and else its fixed placeholder, `dimensions` the raw value or `{}`, so all of them are truthy; price, discount, rating and stock are the raw number or 0 |
| Detail.NetworkAndHttpErrorsFail | src/hooks/useProductDetail.js:14-19 | a network error or a non-ok response never yields a product |
| Detail.DetailHttpFailure | src/hooks/useProductDetail.js:17-19 | a non-ok response fails with `"HTTP error! status: <status>"` |
| Detail.DetailStore.constructor | src/hooks/useProductDetail.js:6-8 | no product, not loading, no error |
| Detail.DetailStore.StartFetch | src/hooks/useProductDetail.js:11-12 | loading true and the error cleared, the held product untouched |
| Detail.DetailStore.FinishFetch | src/hooks/useProductDetail.js:14-59 | success stores the cleaned product; failure sets the error and keeps the held product; loading ends either way |
| Detail.DetailStore.Fetch | src/hooks/useProductDetail.js:10-60 | success replaces the product and clears the error; failure sets the error and keeps the previous product; loading ends false |
| Reviews.TransformReviews | src/components/ProductReviews.jsx:15-30 | one transformed review per raw review, in order |
| Reviews.TransformDefaults | src/components/ProductReviews.jsx:16-24 | the id is the raw id or the index plus one; name, email and comment are the raw value when truthy, else "Anonymous", "" and "No comment provided"; the rating is the number or 0; `verified` is true |
| Reviews.SortHighest | src/components/ProductReviews.jsx:39-40 | `"highest"` rearranges into non-increasing rating, with ties in input order |
| Reviews.SortLowest | src/components/ProductReviews.jsx:41-42 | `"lowest"` rearranges into non-decreasing rating, with ties in input order |
| Reviews.SortUnknownKeepsOrder | src/components/ProductReviews.jsx:45-46 | any other key keeps the order |
| Reviews.ReviewPageSpec | src/components/ProductReviews.jsx:50-56 | a page holds at most 5 reviews, starting at `(page - 1) * 5` |
| Reviews.Tally | src/components/ProductReviews.jsx:59-64 | a star count never exceeds the number of reviews |
| Reviews.RatingCounts | src/components/ProductReviews.jsx:58-64 | slot `k` counts the reviews rated exactly `k + 1` |
| Reviews.TallyTotal | src/components/ProductReviews.jsx:58-64 | the five counts add up to at most the number of reviews |
| Reviews.TallyTotalWhole | src/components/ProductReviews.jsx:58-64 | with whole ratings of 1 to 5 stars they add up to exactly that number |
| Reviews.PageButtonsSpec | src/components/ProductReviews.jsx:240-272 | buttons appear only with more than one page: `1..min(total, 5)` in order, plus the last page exactly when there are more than 5 |
| Reviews.EmptyStateIffNoReviews | src/components/ProductReviews.jsx:78-110 | the empty state is shown exactly when there are no reviews |
| Reviews.ReviewsState.constructor | src/components/ProductReviews.jsx:7-8 | the panel starts at `"latest"`, page 1 |
| Reviews.ReviewsState.SetSortBy | src/components/ProductReviews.jsx:7 | picking a sort leaves the page where it is |
| Reviews.ReviewsState.SetCurrentPage | src/components/ProductReviews.jsx:249 | a page button sets the page and nothing else |
| Reviews.ReviewsState.ShowAll | src/components/ProductReviews.jsx:273-278 | "Show all reviews" goes back to page 1 |
| Info.Step | src/components/ProductInfo.jsx:33-38 | a change is applied only when the new quantity is in `1..stock`; otherwise nothing changes |
| Info.QuantityStepper.constructor | src/components/ProductInfo.jsx:9 | the quantity starts at 1 |
| Info.QuantityStepper.ChangeQuantity | src/components/ProductInfo.jsx:33-38 | the guarded change keeps the stepper's range |
| Info.StepKeepsRange | src/components/ProductInfo.jsx:33-38 | every change keeps `1 <= quantity <= stock`, and with less than one item in stock the quantity stays 1 |
| Info.ButtonsDisabledIffNoEffect | src/components/ProductInfo.jsx:181-203 | for a whole stock of at least one, minus is disabled exactly when it would not change the quantity, and so is plus (lines 181 and 203) |
| Info.Status | src/components/ProductInfo.jsx:117-121 | above 10 in stock, 1 to 10 shows the count, otherwise out of stock |
| Info.ColourFollowsStatus | src/components/ProductInfo.jsx:106-121 | green, yellow and red follow the same thresholds as the status |
| Info.CartLabelsMatchDisabled | src/components/ProductInfo.jsx:230-242 | both cart buttons are disabled exactly when they read "Out of Stock" |
| Info.ReviewNounSingular | src/components/ProductInfo.jsx:41-43 | the count is 0 for non-array reviews, and the noun is "review" exactly for a count of 1 (line 77) |
| ProductsPage.CategoryOptions | src/pages/Products.jsx:41-52 | "All Categories" first, then one option per category in order; a non-array gives only the first |
| ProductsPage.CategoryLabelSpec | src/pages/Products.jsx:46-48 | a label keeps the category's length, upper-cases its first character and turns only the first `-` after it into a space |
| ProductsPage.UnknownCategoryLabel | src/pages/Products.jsx:47-49 | a non-string or empty category is labelled "Unknown Category" |
| ProductsPage.StoreCategoryOptions | src/pages/Products.jsx:41-52 | for the store's categories the options after the first carry each non-empty string category once, in order |
| ProductsPage.SortOptionsSpec | src/pages/Products.jsx:54-61 | the five fixed options come first, and "Most Relevant" is appended exactly when there is a search term |
| ProductsPage.OfferedSortsAreKnown | src/pages/Products.jsx:54-61 | every offered key is one the sort knows, and relevance is offered only with a term to rank by |
| ProductsPage.PaginationShownIffSeveralPages | src/pages/Products.jsx:247-249 | the page control is shown exactly when not loading and there is more than one page of 20 |
| ProductsPage.DerivedLength | src/hooks/useFilters.js:63-141 | the filtered list is never longer than the products |
| ProductsPage.ErrorReplacesCatalogue | src/pages/Products.jsx:63-80 | an error, and only an error, replaces the page with its message |
| ProductsPage.ResultsLineSpec | src/pages/Products.jsx:161-178 | once loaded, X is the page length (at most 20 and at most Y), Y is the filtered length (at most the product count), and the "filtered from N total" note with N the product count appears exactly when filters are active and there is no term |
| ProductsPage.ResultsTextInjective | src/pages/Products.jsx:164-175 | the line can be read back: different shown counts, matching counts or filtered-from notes never render the same text |
| ProductsPage.GridSpec | src/pages/Products.jsx:181-244 | once loaded, the grid shows the current page's cards when that page is non-empty and the empty message otherwise; the cards are at most 20 catalogue products, each passing the search and the category; the empty message offers "Browse All Products" exactly when searching |
| ProductsPage.LoadingView | src/pages/Products.jsx:161-185 | while loading: twelve skeletons, no results line, no page control |
| ProductsPage.ClickPage | src/pages/Products.jsx:247-255 | a click on a rendered page control moves the paginator to the page it emits and keeps the paginator's range |
| ProductsPage.ClickPrevious | src/pages/Products.jsx:247-255 | the previous arrow through `setCurrentPage` is the paginator's guarded step back |
| ProductsPage.ClickNext | src/pages/Products.jsx:247-255 | the next arrow through `setCurrentPage` is the paginator's guarded step forward |
| DetailPage.RelatedAreRelated | src/pages/ProductDetail.jsx:87-89 | every related product is a catalogue product with `category === product.category` |
| DetailPage.RelatedExcludesCurrentId | src/pages/ProductDetail.jsx:88 | a related product's id differs from the current one |
| DetailPage.RelatedAreFirstFour | src/pages/ProductDetail.jsx:87-89 | the related products are the first four qualifying ones: an order-preserving subsequence, at most 4, and every qualifying one when fewer than 4 |
| DetailPage.BreadcrumbSpec | src/pages/ProductDetail.jsx:76-85 | four items: Home `/`, Products `/`, the category with its first letter upper-cased and href `/?category=<category>`, and the title with href `#`, the only current one |
| DetailPage.ViewPriority | src/pages/ProductDetail.jsx:27-74 | loading shows the skeleton; otherwise an error or a missing product shows "not found" with the error text or the default sentence; otherwise the product |
| DetailPage.FailedFetchShowsMessage | src/pages/ProductDetail.jsx:55-74 | after a failed fetch with no product held, the page shows the failure message |
| DetailPage.TabSelection | src/pages/ProductDetail.jsx:91-106 | `"reviews"` shows reviews, `"discussion"` the placeholder, anything else and the initial tab the details |

## Left out

- Network and asynchrony: `fetch`, `response.json()`, `async`/`await` and the order in which superseded fetches resolve. A fetch outcome is an input: a network error, or a response with an ok flag, a status and a body that parsed as JSON or failed to.
- React's runtime: re-render, memo and effect timing, refs, focus and key listeners. Hook state is a class's fields. An update becomes visible at once.
- Paging.Paginator.SetItems: the reset on a change of `items.length` runs in an effect, after a render that still shows the old page; the model applies it together with the new items.
- `window.location.reload`, `navigate`, and `console.*` calls.
- Floating point: `discountedPrice`, `toFixed`, `Math.round`, the histogram percentages and the star fill. Numbers are exact reals, and NaN and the infinities are not modelled.
- Info.StatusLabel: takes the rendered count as text, because JavaScript's rendering of a fractional stock is not modelled.
- Clock, locale and randomness: the review dates, the latest and oldest sorts, and the random helpful counts. `Reviews.SortReviews` takes the date and helpful keys as functions.
- `localeCompare` is code-unit lexicographic order. This differs from a browser's locale order even on ASCII: `Filters.SortName` compares the titles without lower-casing them, so "Banana" sorts before "apple", where a browser puts "apple" first. `toLowerCase` and `toUpperCase` change only the ASCII letters.
- `encodeURIComponent` avatar URLs, and the `Dropdown` component's `useDropdown` hook, which is not part of this model.
- Purely presentational components: Navbar, Footer, Banner, SkeletonCard, Breadcrumb, ProductTabs, SearchInput, SearchResults, Dropdown, ProductCard, ProductImageGallery, RelatedProducts, `useImageError`, and routing.
- The in-place sort of `filtered.sort(...)` is modelled on values. The copy `[...products]` means the caller's list is never reordered, which a value model shows trivially. Aliasing is not modelled.
- A `perPage` of 0 would divide by zero. `Paging.TotalPages` and the paginator require a positive page size, which is what every caller passes (20 and 5).
- Render-time exceptions become preconditions:
  - `Reviews.TransformReview`: a `null` review;
  - `DetailPage.Breadcrumb`: a non-string category, which has no `charAt`.
  
  A `null` product record inside a fetch is modelled: it fails the fetch with the TypeError's message.
- DetailPage.StrictEquals: `===` is value equality on primitives. Arrays and objects from two different responses always compare unequal.
