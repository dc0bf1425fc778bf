/**
 * The product-list hook (`useProducts`): what one fetch of the catalogue
 * turns into — the cleaned product records, the list of their categories,
 * or an error message — and the loading/error/data state it updates.
 */
module Catalog {
  import opened Js
  import opened Seqs

  /** The body of a response, as `response.json()` sees it. */
  datatype Body =
    | Json(data: Value)
    /** `response.json()` rejects (the body is not JSON), with the error's message. */
    | NotJson(message: string)

  /** What `fetch` yields: a rejection, or a response with its `ok` flag and status. */
  datatype Outcome =
    | NetworkError(message: string)
    | Response(ok: bool, status: nat, body: Body)

  /** A cleaned record. Text fields keep any truthy raw value, so they stay `Value`s. */
  datatype Product = Product(
    id: Value,
    title: Value,
    description: Value,
    price: real,
    discountPercentage: real,
    rating: real,
    stock: real,
    brand: Value,
    category: Value,
    thumbnail: Value,
    images: seq<Value>)

  const UntitledProduct := "Untitled Product"
  const NoDescription := "No description available"
  const UnknownBrand := "Unknown Brand"
  const Uncategorized := "uncategorized"
  const CardPlaceholder := "/placeholder.svg?height=250&width=300"
  const InvalidFormat := "Invalid response format from API"
  const FetchFailed := "Failed to fetch products"

  /** `new Error(`HTTP error! status: ${response.status}`)` */
  function HttpErrorMessage(status: nat): string {
    "HTTP error! status: " + NatToString(status)
  }

  /** `err.message || fallback` */
  function ErrorText(message: string, fallback: string): (r: string)
    requires fallback != ""
    ensures r != ""
    ensures message != "" ==> r == message
  {
    if message != "" then message else fallback
  }

  /** The object literal the `map` callback builds for record `p` at position `index`. */
  function CleanProduct(p: Value, index: nat): Product
    requires !IsNullish(p)
  {
    Product(
      id := Or(Get(p, "id"), Num(index as real)),
      title := Or(Get(p, "title"), Str(UntitledProduct)),
      description := Or(Get(p, "description"), Str(NoDescription)),
      price := NumberOr(Get(p, "price"), 0.0),
      discountPercentage := NumberOr(Get(p, "discountPercentage"), 0.0),
      rating := NumberOr(Get(p, "rating"), 0.0),
      stock := NumberOr(Get(p, "stock"), 0.0),
      brand := Or(Get(p, "brand"), Str(UnknownBrand)),
      category := Or(Get(p, "category"), Str(Uncategorized)),
      thumbnail := Or(Get(p, "thumbnail"), Str(CardPlaceholder)),
      images := if Get(p, "images").Arr? then Get(p, "images").elems
                else [Or(Get(p, "thumbnail"), Str(CardPlaceholder))])
  }

  /** `data.products.map(...)`, for a list without nullish entries. */
  function CleanAll(raw: seq<Value>): (r: seq<Product>)
    requires forall i :: 0 <= i < |raw| ==> !IsNullish(raw[i])
    ensures |r| == |raw|
    ensures forall i :: 0 <= i < |raw| ==> r[i] == CleanProduct(raw[i], i)
  {
    seq(|raw|, i requires 0 <= i < |raw| => CleanProduct(raw[i], i))
  }

  /** The position of the first nullish entry: the `map` throws there, reading `product.id`. */
  function FirstNullish(raw: seq<Value>): (i: nat)
    requires exists k :: 0 <= k < |raw| && IsNullish(raw[k])
    ensures i < |raw| && IsNullish(raw[i])
    ensures forall k :: 0 <= k < i ==> !IsNullish(raw[k])
  {
    if IsNullish(raw[0]) then 0
    else
      assert exists k :: 0 <= k < |raw[1..]| && IsNullish(raw[1..][k]) by {
        var k :| 0 <= k < |raw| && IsNullish(raw[k]);
        assert raw[1..][k - 1] == raw[k];
      }
      1 + FirstNullish(raw[1..])
  }

  /** The truthy string categories, in order, with repetitions: `.map(p => p.category).filter(...)`. */
  function StringCategories(products: seq<Product>): (r: seq<string>)
    ensures forall i :: 0 <= i < |r| ==> r[i] != ""
  {
    if products == [] then []
    else
      (if products[0].category.Str? && products[0].category.s != "" then [products[0].category.s] else [])
      + StringCategories(products[1..])
  }

  /** `Array.from(new Set(...))` over the string categories. */
  function UniqueCategories(products: seq<Product>): seq<string> {
    Dedup(StringCategories(products))
  }

  /** A cleaned record as the JavaScript object the rest of the page reads. */
  function AsValue(p: Product): Value {
    Obj(map[
      "id" := p.id, "title" := p.title, "description" := p.description,
      "price" := Num(p.price), "discountPercentage" := Num(p.discountPercentage),
      "rating" := Num(p.rating), "stock" := Num(p.stock), "brand" := p.brand,
      "category" := p.category, "thumbnail" := p.thumbnail, "images" := Arr(p.images)])
  }

  function AsValues(products: seq<Product>): (r: seq<Value>)
    ensures |r| == |products|
    ensures forall i :: 0 <= i < |r| ==> r[i] == AsValue(products[i])
  {
    seq(|products|, i requires 0 <= i < |products| => AsValue(products[i]))
  }

  /** What a fetch leaves behind: the cleaned data, or the error message. */
  datatype FetchResult =
    | Loaded(products: seq<Product>, categories: seq<string>)
    | Failed(message: string)

  /** The `try` block of `fetchProducts` and its `catch`, given the outcome of `fetch`. */
  function FetchProducts(outcome: Outcome): FetchResult {
    match outcome
    case NetworkError(message) => Failed(ErrorText(message, FetchFailed))
    case Response(ok, status, body) =>
      if !ok then Failed(HttpErrorMessage(status))
      else match body
        case NotJson(message) => Failed(ErrorText(message, FetchFailed))
        case Json(data) =>
          if !Truthy(data) || !Get(data, "products").Arr? then Failed(InvalidFormat)
          else
            var raw := Get(data, "products").elems;
            if exists k :: 0 <= k < |raw| && IsNullish(raw[k]) then
              Failed(ReadOfNullishMessage(raw[FirstNullish(raw)], "id"))
            else
              var cleaned := CleanAll(raw);
              Loaded(cleaned, UniqueCategories(cleaned))
  }

  /** The hook's state. */
  class ProductsStore {
    var products: seq<Product>
    var loading: bool
    var error: Option<string>
    var categories: seq<string>

    /** Before the first fetch has finished: no data, loading. */
    constructor ()
      ensures products == [] && loading && error == None && categories == []
    {
      products := [];
      loading := true;
      error := None;
      categories := [];
    }

    /** `setLoading(true); setError(null);` */
    method StartFetch()
      modifies this
      ensures loading && error == None
      ensures products == old(products) && categories == old(categories)
    {
      loading := true;
      error := None;
    }

    /** The end of the `try`, the `catch` and the `finally`. */
    method FinishFetch(outcome: Outcome)
      requires error == None
      modifies this
      ensures !loading
      ensures match FetchProducts(outcome)
        case Loaded(ps, cs) => products == ps && categories == cs && error == None
        case Failed(m) => products == [] && categories == [] && error == Some(m)
    {
      var result := FetchProducts(outcome);
      match result {
        case Loaded(ps, cs) =>
          products := ps;
          categories := cs;
        case Failed(m) =>
          error := Some(m);
          products := [];
          categories := [];
      }
      loading := false;
    }

    /** `fetchProducts()` with the outcome of its `fetch` given. */
    method Fetch(outcome: Outcome)
      modifies this
      ensures !loading
      ensures match FetchProducts(outcome)
        case Loaded(ps, cs) => products == ps && categories == cs && error == None
        case Failed(m) => products == [] && categories == [] && error == Some(m)
    {
      StartFetch();
      FinishFetch(outcome);
    }
  }

  // ---------------------------------------------------------------------------
  // Properties of the cleaning

  /**
   * The id is the raw id when truthy and the record's position otherwise;
   * each text field is the raw value when truthy and its placeholder
   * otherwise, so it is always truthy; each number is the raw number or 0;
   * `images` is the raw array, or else the one-entry list of the thumbnail.
   */
  lemma CleanProductDefaults(p: Value, index: nat)
    requires !IsNullish(p)
    ensures var c := CleanProduct(p, index);
      && (Truthy(Get(p, "id")) ==> c.id == Get(p, "id"))
      && (!Truthy(Get(p, "id")) ==> c.id == Num(index as real))
      && (c.title == if Truthy(Get(p, "title")) then Get(p, "title") else Str(UntitledProduct))
      && (c.description == if Truthy(Get(p, "description")) then Get(p, "description") else Str(NoDescription))
      && (c.brand == if Truthy(Get(p, "brand")) then Get(p, "brand") else Str(UnknownBrand))
      && (c.category == if Truthy(Get(p, "category")) then Get(p, "category") else Str(Uncategorized))
      && (c.thumbnail == if Truthy(Get(p, "thumbnail")) then Get(p, "thumbnail") else Str(CardPlaceholder))
      && Truthy(c.title) && Truthy(c.description) && Truthy(c.brand) && Truthy(c.category) && Truthy(c.thumbnail)
      && (c.price == if Get(p, "price").Num? then Get(p, "price").n else 0.0)
      && (c.discountPercentage == if Get(p, "discountPercentage").Num? then Get(p, "discountPercentage").n else 0.0)
      && (c.rating == if Get(p, "rating").Num? then Get(p, "rating").n else 0.0)
      && (c.stock == if Get(p, "stock").Num? then Get(p, "stock").n else 0.0)
      && (Get(p, "images").Arr? ==> c.images == Get(p, "images").elems)
      && (!Get(p, "images").Arr? ==> c.images == [c.thumbnail])
  {
  }

  /** Cleaning a cleaned record again at the same position changes nothing. */
  lemma CleanProductFixpoint(p: Value, index: nat)
    requires !IsNullish(p)
    ensures CleanProduct(AsValue(CleanProduct(p, index)), index) == CleanProduct(p, index)
  {
    var c := CleanProduct(p, index);
    var v := AsValue(c);
    var d := CleanProduct(v, index);
    assert d.id == c.id by { assert Get(v, "id") == c.id; }
    assert d.title == c.title by { assert Get(v, "title") == c.title; }
    assert d.description == c.description by { assert Get(v, "description") == c.description; }
    assert d.brand == c.brand by { assert Get(v, "brand") == c.brand; }
    assert d.category == c.category by { assert Get(v, "category") == c.category; }
    assert d.thumbnail == c.thumbnail by { assert Get(v, "thumbnail") == c.thumbnail; }
    assert d.images == c.images by { assert Get(v, "images") == Arr(c.images); }
    assert d.price == c.price by { assert Get(v, "price") == Num(c.price); }
    assert d.discountPercentage == c.discountPercentage by {
      assert Get(v, "discountPercentage") == Num(c.discountPercentage);
    }
    assert d.rating == c.rating by { assert Get(v, "rating") == Num(c.rating); }
    assert d.stock == c.stock by { assert Get(v, "stock") == Num(c.stock); }
  }

  /**
   * The position matters: a record at position 0 without an id gets the
   * falsy id 0, which cleaning at another position replaces.
   */
  lemma CleanProductIdAtZero(index: nat)
    requires index > 0
    ensures CleanProduct(AsValue(CleanProduct(Obj(map[]), 0)), index).id == Num(index as real)
  {
    assert Get(AsValue(CleanProduct(Obj(map[]), 0)), "id") == Num(0.0);
  }

  /** The categories are exactly the truthy string categories of the records. */
  lemma {:induction false} StringCategoriesMembership(products: seq<Product>, x: string)
    ensures x in StringCategories(products) <==>
      x != "" && exists i :: 0 <= i < |products| && products[i].category == Str(x)
  {
    if products != [] {
      StringCategoriesMembership(products[1..], x);
      if exists i :: 0 <= i < |products| && products[i].category == Str(x) {
        var i :| 0 <= i < |products| && products[i].category == Str(x);
        if i > 0 {
          assert products[1..][i - 1].category == Str(x);
        }
      }
      if exists i :: 0 <= i < |products[1..]| && products[1..][i].category == Str(x) {
        var i :| 0 <= i < |products[1..]| && products[1..][i].category == Str(x);
        assert products[i + 1].category == Str(x);
      }
    }
  }

  /**
   * `categories` holds each non-empty string category of the records once,
   * and no other value, in the order of first occurrence.
   */
  lemma UniqueCategoriesSpec(products: seq<Product>, x: string)
    ensures NoDuplicates(UniqueCategories(products))
    ensures x in UniqueCategories(products) <==>
      x != "" && exists i :: 0 <= i < |products| && products[i].category == Str(x)
    ensures IsSubsequence(UniqueCategories(products), StringCategories(products))
    ensures InFirstOccurrenceOrder(UniqueCategories(products), StringCategories(products))
  {
    var s := StringCategories(products);
    var u := UniqueCategories(products);
    assert u == Dedup(s);
    DedupNoDuplicates(s);
    DedupMembership(s, x);
    StringCategoriesMembership(products, x);
    DedupIsSubsequence(s);
    DedupFirstOccurrenceOrder(s);
  }

  /** The filter engine reads back exactly the cleaned fields. */
  lemma AsValueFields(p: Product)
    ensures Get(AsValue(p), "title") == p.title && Get(AsValue(p), "description") == p.description
    ensures Get(AsValue(p), "brand") == p.brand && Get(AsValue(p), "category") == p.category
    ensures Get(AsValue(p), "price") == Num(p.price) && Get(AsValue(p), "rating") == Num(p.rating)
    ensures Truthy(AsValue(p)) && TypeOf(AsValue(p)) == "object"
  {
  }

  // ---------------------------------------------------------------------------
  // Properties of a fetch

  /** A response that is not ok fails with its status in the message. */
  lemma HttpFailure(status: nat, body: Body)
    ensures FetchProducts(Response(false, status, body)) == Failed(HttpErrorMessage(status))
  {
  }

  /** A body without an array `products` field is an invalid format. */
  lemma InvalidFormatFailure(status: nat, data: Value)
    requires !Truthy(data) || !Get(data, "products").Arr?
    ensures FetchProducts(Response(true, status, Json(data))) == Failed(InvalidFormat)
  {
  }

  /** A successful fetch keeps one cleaned record per raw record, at the same position. */
  lemma LoadedSpec(outcome: Outcome)
    requires FetchProducts(outcome).Loaded?
    ensures outcome.Response? && outcome.ok && outcome.body.Json?
    ensures var raw := Get(outcome.body.data, "products").elems;
      && (forall i :: 0 <= i < |raw| ==> !IsNullish(raw[i]))
      && FetchProducts(outcome).products == CleanAll(raw)
      && FetchProducts(outcome).categories == UniqueCategories(CleanAll(raw))
  {
  }

  /** Every failure message is non-empty, so the error view always has text. */
  lemma FailureMessageNonEmpty(outcome: Outcome)
    requires FetchProducts(outcome).Failed?
    ensures FetchProducts(outcome).message != ""
  {
  }

  /** The HTTP error messages of different statuses differ. */
  lemma HttpErrorMessageInjective(s: nat, t: nat)
    ensures HttpErrorMessage(s) == HttpErrorMessage(t) ==> s == t
  {
    var prefix := "HTTP error! status: ";
    if HttpErrorMessage(s) == HttpErrorMessage(t) {
      assert NatToString(s) == HttpErrorMessage(s)[|prefix|..];
      assert NatToString(t) == HttpErrorMessage(t)[|prefix|..];
      NatToStringInjective(s, t);
    }
  }
}
