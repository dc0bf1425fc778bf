/**
 * The review panel (`ProductReviews`): the defaulted review records, their
 * sort, pages of five, the star histogram and the page buttons.
 */
module Reviews {
  import opened Js
  import opened Seqs
  import opened Sorting
  import opened Paging

  /** A transformed review, without the display-only date, avatar and random counts. */
  datatype Review = Review(
    id: Value,
    reviewerName: Value,
    reviewerEmail: Value,
    rating: real,
    comment: Value,
    verified: bool)

  const ReviewsPerPage: nat := 5
  const Anonymous := "Anonymous"
  const NoComment := "No comment provided"

  /** `Array.isArray(product.reviews) ? product.reviews : []` */
  function ApiReviews(reviews: Value): seq<Value> {
    if reviews.Arr? then reviews.elems else []
  }

  /** The `map` callback for review `r` at position `index`. */
  function TransformReview(r: Value, index: nat): Review
    requires !IsNullish(r)
  {
    Review(
      id := Or(Get(r, "id"), Num((index + 1) as real)),
      reviewerName := Or(Get(r, "reviewerName"), Str(Anonymous)),
      reviewerEmail := Or(Get(r, "reviewerEmail"), Str("")),
      rating := NumberOr(Get(r, "rating"), 0.0),
      comment := Or(Get(r, "comment"), Str(NoComment)),
      verified := true)
  }

  /** `apiReviews.map(...)`; a nullish review would make the render throw. */
  function TransformReviews(raw: seq<Value>): (r: seq<Review>)
    requires forall i :: 0 <= i < |raw| ==> !IsNullish(raw[i])
    ensures |r| == |raw|
    ensures forall i :: 0 <= i < |raw| ==> r[i] == TransformReview(raw[i], i)
  {
    seq(|raw|, i requires 0 <= i < |raw| => TransformReview(raw[i], i))
  }

  /**
   * The key each `sortBy` value orders by. The date and the helpful count
   * come from the clock, the locale and `Math.random`, so they are given.
   */
  function ReviewKey(sortBy: string, date: Review -> real, helpful: Review -> real): Review -> Rank {
    if sortBy == "latest" then r => Rank(-date(r), "")
    else if sortBy == "oldest" then r => Rank(date(r), "")
    else if sortBy == "highest" then (r: Review) => Rank(-r.rating, "")
    else if sortBy == "lowest" then (r: Review) => Rank(r.rating, "")
    else if sortBy == "helpful" then r => Rank(-helpful(r), "")
    else r => Rank(0.0, "")
  }

  /** `[...transformedReviews].sort(...)` */
  function SortReviews(reviews: seq<Review>, sortBy: string, date: Review -> real, helpful: Review -> real): seq<Review> {
    SortByRank(reviews, ReviewKey(sortBy, date, helpful))
  }

  /** `paginatedReviews` */
  function ReviewPage(sorted: seq<Review>, currentPage: int): seq<Review> {
    PageItems(sorted, currentPage, ReviewsPerPage)
  }

  /** The number of reviews rated exactly `star`. */
  function Tally(reviews: seq<Review>, star: int): (n: nat)
    ensures n <= |reviews|
  {
    if reviews == [] then 0
    else Tally(reviews[..|reviews| - 1], star) + (if reviews[|reviews| - 1].rating == star as real then 1 else 0)
  }

  /**
   * The `ratingCounts` loop. A rating outside `1..5` is skipped; so is a
   * fractional one, whose `ratingCounts[rating - 1]++` writes a property
   * that is not one of the five slots.
   */
  method RatingCounts(reviews: seq<Review>) returns (counts: array<nat>)
    ensures fresh(counts) && counts.Length == 5
    ensures forall k :: 0 <= k < 5 ==> counts[k] == Tally(reviews, k + 1)
  {
    counts := new nat[5](_ => 0);
    var i := 0;
    while i < |reviews|
      invariant 0 <= i <= |reviews|
      invariant forall k :: 0 <= k < 5 ==> counts[k] == Tally(reviews[..i], k + 1)
    {
      var rating := reviews[i].rating;
      assert reviews[..i + 1][..i] == reviews[..i];
      if rating >= 1.0 && rating <= 5.0 && rating == rating.Floor as real {
        counts[rating.Floor - 1] := counts[rating.Floor - 1] + 1;
      }
      i := i + 1;
    }
    assert reviews[..i] == reviews;
  }

  /** The page buttons: `1..min(totalPages, 5)`, then the last page when there are more than 5. */
  function PageButtons(totalPages: nat): seq<int> {
    if totalPages <= 1 then []
    else
      seq(Min(totalPages, 5), i => i + 1) + (if totalPages > 5 then [totalPages as int] else [])
  }

  /** What the panel shows. */
  datatype ReviewsView =
    | EmptyState(averageRating: real)
    | ReviewList(averageRating: real, totalReviews: nat, pageButtons: seq<int>)

  /** The early return for zero reviews, else the list with its controls. */
  function ReviewsPanel(productRating: Value, reviews: seq<Review>): ReviewsView {
    var average := NumberOr(productRating, 0.0);
    if |reviews| == 0 then EmptyState(average)
    else ReviewList(average, |reviews|, PageButtons(TotalPages(|reviews|, ReviewsPerPage)))
  }

  /** `review{totalReviews !== 1 ? "s" : ""}` */
  function ReviewNoun(count: nat): string {
    if count != 1 then "reviews" else "review"
  }

  /** The panel's own state. */
  class ReviewsState {
    var sortBy: string
    var currentPage: int

    constructor ()
      ensures sortBy == "latest" && currentPage == 1
    {
      sortBy := "latest";
      currentPage := 1;
    }

    /** Picking a sort order; the page stays where it is. */
    method SetSortBy(key: string)
      modifies this
      ensures sortBy == key && currentPage == old(currentPage)
    {
      sortBy := key;
    }

    /** A page button. */
    method SetCurrentPage(page: int)
      modifies this
      ensures currentPage == page && sortBy == old(sortBy)
    {
      currentPage := page;
    }

    /** "Show all reviews": back to page 1. */
    method ShowAll()
      modifies this
      ensures currentPage == 1 && sortBy == old(sortBy)
    {
      currentPage := 1;
    }
  }

  // ---------------------------------------------------------------------------
  // Properties

  /**
   * Each field of a transformed review is the raw value when truthy and its
   * fallback otherwise (the position plus one for the id, "Anonymous", ""
   * and "No comment provided"); the rating is the raw number or 0, and every
   * review is verified.
   */
  lemma TransformDefaults(r: Value, index: nat)
    requires !IsNullish(r)
    ensures var t := TransformReview(r, index);
      && (t.id == if Truthy(Get(r, "id")) then Get(r, "id") else Num((index + 1) as real))
      && (t.reviewerName == if Truthy(Get(r, "reviewerName")) then Get(r, "reviewerName") else Str(Anonymous))
      && (t.reviewerEmail == if Truthy(Get(r, "reviewerEmail")) then Get(r, "reviewerEmail") else Str(""))
      && (t.comment == if Truthy(Get(r, "comment")) then Get(r, "comment") else Str(NoComment))
      && Truthy(t.id) && Truthy(t.reviewerName) && Truthy(t.comment) && t.verified
      && (Get(r, "rating").Num? ==> t.rating == Get(r, "rating").n)
      && (!Get(r, "rating").Num? ==> t.rating == 0.0)
  {
  }

  /** `"highest"`: a rearrangement in non-increasing rating, ties in input order. */
  lemma SortHighest(reviews: seq<Review>, date: Review -> real, helpful: Review -> real, k: Rank)
    ensures var s := SortReviews(reviews, "highest", date, helpful);
      && multiset(s) == multiset(reviews)
      && (forall i, j :: 0 <= i < j < |s| ==> s[i].rating >= s[j].rating)
      && WithKey(s, ReviewKey("highest", date, helpful), k) == WithKey(reviews, ReviewKey("highest", date, helpful), k)
  {
    var key := ReviewKey("highest", date, helpful);
    SortPermutes(reviews, key);
    SortSorts(reviews, key);
    SortStable(reviews, key, k);
  }

  /** `"lowest"`: a rearrangement in non-decreasing rating, ties in input order. */
  lemma SortLowest(reviews: seq<Review>, date: Review -> real, helpful: Review -> real, k: Rank)
    ensures var s := SortReviews(reviews, "lowest", date, helpful);
      && multiset(s) == multiset(reviews)
      && (forall i, j :: 0 <= i < j < |s| ==> s[i].rating <= s[j].rating)
      && WithKey(s, ReviewKey("lowest", date, helpful), k) == WithKey(reviews, ReviewKey("lowest", date, helpful), k)
  {
    var key := ReviewKey("lowest", date, helpful);
    SortPermutes(reviews, key);
    SortSorts(reviews, key);
    SortStable(reviews, key, k);
  }

  /** A key other than the five sort orders makes the comparator answer 0: the order stays. */
  lemma SortUnknownKeepsOrder(reviews: seq<Review>, sortBy: string, date: Review -> real, helpful: Review -> real)
    requires sortBy !in {"latest", "oldest", "highest", "lowest", "helpful"}
    ensures SortReviews(reviews, sortBy, date, helpful) == reviews
  {
    SortByConstant(reviews, ReviewKey(sortBy, date, helpful), Rank(0.0, ""));
  }

  /** `totalPages = ceil(n / 5)`, and a page holds at most 5 reviews, starting at `(page - 1) * 5`. */
  lemma ReviewPageSpec(sorted: seq<Review>, currentPage: int)
    requires currentPage >= 1
    ensures |ReviewPage(sorted, currentPage)| <= ReviewsPerPage
    ensures var start := (currentPage - 1) * 5;
      start <= |sorted| ==> ReviewPage(sorted, currentPage) == sorted[start..Min(start + 5, |sorted|)]
  {
    PageItemsSpec(sorted, currentPage, ReviewsPerPage);
  }

  /** Each review falls in at most one bucket, so the buckets add up to at most the number of reviews. */
  lemma {:induction false} TallyTotal(reviews: seq<Review>)
    ensures Tally(reviews, 1) + Tally(reviews, 2) + Tally(reviews, 3) + Tally(reviews, 4) + Tally(reviews, 5) <= |reviews|
  {
    if reviews != [] {
      TallyTotal(reviews[..|reviews| - 1]);
    }
  }

  /** When every rating is a whole number of stars, the buckets add up to the number of reviews. */
  lemma {:induction false} TallyTotalWhole(reviews: seq<Review>)
    requires forall i :: 0 <= i < |reviews| ==> reviews[i].rating in {1.0, 2.0, 3.0, 4.0, 5.0}
    ensures Tally(reviews, 1) + Tally(reviews, 2) + Tally(reviews, 3) + Tally(reviews, 4) + Tally(reviews, 5) == |reviews|
  {
    if reviews != [] {
      TallyTotalWhole(reviews[..|reviews| - 1]);
    }
  }

  /**
   * Page buttons appear only with more than one page; they are `1..min(total, 5)`
   * in order, followed by the last page exactly when there are more than 5.
   */
  lemma PageButtonsSpec(totalPages: nat)
    ensures totalPages <= 1 <==> PageButtons(totalPages) == []
    ensures totalPages > 1 ==>
      && (forall i :: 0 <= i < Min(totalPages, 5) ==> PageButtons(totalPages)[i] == i + 1)
      && |PageButtons(totalPages)| == Min(totalPages, 5) + (if totalPages > 5 then 1 else 0)
      && PageButtons(totalPages)[|PageButtons(totalPages)| - 1] == totalPages
      && (forall i, j :: 0 <= i < j < |PageButtons(totalPages)| ==> PageButtons(totalPages)[i] < PageButtons(totalPages)[j])
      && (forall i :: 0 <= i < |PageButtons(totalPages)| ==> 1 <= PageButtons(totalPages)[i] <= totalPages)
  {
  }

  /** With no reviews the empty state replaces the list. */
  lemma EmptyStateIffNoReviews(productRating: Value, reviews: seq<Review>)
    ensures ReviewsPanel(productRating, reviews).EmptyState? <==> |reviews| == 0
  {
  }
}
