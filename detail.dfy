/**
 * The product-detail hook (`useProductDetail`): the fully defaulted record
 * built from one fetched product, and the product/loading/error state a
 * fetch updates.
 */
module Detail {
  import opened Js
  import opened Seqs
  import opened Catalog

  /** The cleaned detail record. */
  datatype DetailProduct = DetailProduct(
    id: Value,
    title: Value,
    description: Value,
    price: real,
    discountPercentage: real,
    rating: real,
    stock: real,
    brand: Value,
    category: Value,
    thumbnail: Value,
    images: seq<Value>,
    dimensions: Value,
    warrantyInformation: Value,
    shippingInformation: Value,
    availabilityStatus: Value,
    reviews: seq<Value>,
    returnPolicy: Value,
    minimumOrderQuantity: Value)

  const DetailPlaceholder := "/placeholder.svg?height=400&width=400"
  const NoWarranty := "No warranty information"
  const StandardShipping := "Standard shipping applies"
  const InStock := "In Stock"
  const ReturnPolicy := "30 day return policy"
  const DetailFetchFailed := "Failed to fetch product details"

  /** The `cleanedProduct` literal for body `data`, fetched for route id `id`. */
  function CleanDetail(data: Value, id: string): DetailProduct
    requires !IsNullish(data)
  {
    var images := Get(data, "images");
    var reviews := Get(data, "reviews");
    DetailProduct(
      id := Or(Get(data, "id"), Str(id)),
      title := Or(Get(data, "title"), Str(UntitledProduct)),
      description := Or(Get(data, "description"), Str(NoDescription)),
      price := NumberOr(Get(data, "price"), 0.0),
      discountPercentage := NumberOr(Get(data, "discountPercentage"), 0.0),
      rating := NumberOr(Get(data, "rating"), 0.0),
      stock := NumberOr(Get(data, "stock"), 0.0),
      brand := Or(Get(data, "brand"), Str(UnknownBrand)),
      category := Or(Get(data, "category"), Str(Uncategorized)),
      thumbnail := Or(Get(data, "thumbnail"), Str(DetailPlaceholder)),
      images := if images.Arr? && |images.elems| > 0 then images.elems
                else [Or(Get(data, "thumbnail"), Str(DetailPlaceholder))],
      dimensions := Or(Get(data, "dimensions"), Obj(map[])),
      warrantyInformation := Or(Get(data, "warrantyInformation"), Str(NoWarranty)),
      shippingInformation := Or(Get(data, "shippingInformation"), Str(StandardShipping)),
      availabilityStatus := Or(Get(data, "availabilityStatus"), Str(InStock)),
      reviews := if reviews.Arr? then reviews.elems else [],
      returnPolicy := Or(Get(data, "returnPolicy"), Str(ReturnPolicy)),
      minimumOrderQuantity := Or(Get(data, "minimumOrderQuantity"), Num(1.0)))
  }

  datatype DetailResult = Fetched(product: DetailProduct) | DetailFailed(message: string)

  /** The `try` block of `fetchProductDetail(id)` and its `catch`. */
  function FetchDetail(outcome: Outcome, id: string): DetailResult {
    match outcome
    case NetworkError(message) => DetailFailed(ErrorText(message, DetailFetchFailed))
    case Response(ok, status, body) =>
      if !ok then DetailFailed(HttpErrorMessage(status))
      else match body
        case NotJson(message) => DetailFailed(ErrorText(message, DetailFetchFailed))
        case Json(data) =>
          if IsNullish(data) then DetailFailed(ReadOfNullishMessage(data, "id"))
          else Fetched(CleanDetail(data, id))
  }

  /** The hook's state. */
  class DetailStore {
    var product: Option<DetailProduct>
    var loading: bool
    var error: Option<string>

    /** No product, not loading, no error. */
    constructor ()
      ensures product == None && !loading && error == None
    {
      product := None;
      loading := false;
      error := None;
    }

    /** `setLoading(true); setError(null);` */
    method StartFetch()
      modifies this
      ensures loading && error == None
      ensures product == old(product)
    {
      loading := true;
      error := None;
    }

    /** The end of the `try`, the `catch` and the `finally`. */
    method FinishFetch(outcome: Outcome, id: string)
      requires error == None
      modifies this
      ensures !loading
      ensures match FetchDetail(outcome, id)
        case Fetched(p) => product == Some(p) && error == None
        case DetailFailed(m) => product == old(product) && error == Some(m)
    {
      var result := FetchDetail(outcome, id);
      match result {
        case Fetched(p) =>
          product := Some(p);
        case DetailFailed(m) =>
          error := Some(m);
      }
      loading := false;
    }

    /** `fetchProductDetail(id)` with the outcome of its `fetch` given. */
    method Fetch(outcome: Outcome, id: string)
      modifies this
      ensures !loading
      ensures match FetchDetail(outcome, id)
        case Fetched(p) => product == Some(p) && error == None
        case DetailFailed(m) => product == old(product) && error == Some(m)
    {
      StartFetch();
      FinishFetch(outcome, id);
    }
  }

  // ---------------------------------------------------------------------------
  // Properties of the cleaning

  /**
   * `images` is never empty: the raw array when it is a non-empty array,
   * otherwise the thumbnail or the placeholder, which is truthy.
   */
  lemma DetailImagesNonEmpty(data: Value, id: string)
    requires !IsNullish(data)
    ensures var d := CleanDetail(data, id);
      && |d.images| >= 1
      && (Get(data, "images").Arr? && |Get(data, "images").elems| > 0 ==> d.images == Get(data, "images").elems)
      && (!(Get(data, "images").Arr? && |Get(data, "images").elems| > 0) ==> d.images == [d.thumbnail] && Truthy(d.images[0]))
  {
  }

  /**
   * The other defaults: reviews are the raw array or `[]`, the id falls
   * back to the requested one, the minimum order quantity to 1, every text
   * field to its placeholder and `dimensions` to `{}`, so all of them end up
   * truthy; each number is the raw number or 0.
   */
  lemma DetailDefaults(data: Value, id: string)
    requires !IsNullish(data)
    ensures var d := CleanDetail(data, id);
      && (Get(data, "reviews").Arr? ==> d.reviews == Get(data, "reviews").elems)
      && (!Get(data, "reviews").Arr? ==> d.reviews == [])
      && (d.id == if Truthy(Get(data, "id")) then Get(data, "id") else Str(id))
      && (d.minimumOrderQuantity == if Truthy(Get(data, "minimumOrderQuantity")) then Get(data, "minimumOrderQuantity") else Num(1.0))
      && (d.title == if Truthy(Get(data, "title")) then Get(data, "title") else Str(UntitledProduct))
      && (d.description == if Truthy(Get(data, "description")) then Get(data, "description") else Str(NoDescription))
      && (d.brand == if Truthy(Get(data, "brand")) then Get(data, "brand") else Str(UnknownBrand))
      && (d.category == if Truthy(Get(data, "category")) then Get(data, "category") else Str(Uncategorized))
      && (d.thumbnail == if Truthy(Get(data, "thumbnail")) then Get(data, "thumbnail") else Str(DetailPlaceholder))
      && (d.dimensions == if Truthy(Get(data, "dimensions")) then Get(data, "dimensions") else Obj(map[]))
      && (d.warrantyInformation ==
            if Truthy(Get(data, "warrantyInformation")) then Get(data, "warrantyInformation") else Str(NoWarranty))
      && (d.shippingInformation ==
            if Truthy(Get(data, "shippingInformation")) then Get(data, "shippingInformation") else Str(StandardShipping))
      && (d.availabilityStatus ==
            if Truthy(Get(data, "availabilityStatus")) then Get(data, "availabilityStatus") else Str(InStock))
      && (d.returnPolicy == if Truthy(Get(data, "returnPolicy")) then Get(data, "returnPolicy") else Str(ReturnPolicy))
      && Truthy(d.minimumOrderQuantity) && Truthy(d.dimensions)
      && Truthy(d.title) && Truthy(d.description) && Truthy(d.brand) && Truthy(d.category)
      && Truthy(d.warrantyInformation) && Truthy(d.shippingInformation)
      && Truthy(d.availabilityStatus) && Truthy(d.returnPolicy)
      && (d.price == if Get(data, "price").Num? then Get(data, "price").n else 0.0)
      && (d.discountPercentage == if Get(data, "discountPercentage").Num? then Get(data, "discountPercentage").n else 0.0)
      && (d.rating == if Get(data, "rating").Num? then Get(data, "rating").n else 0.0)
      && (d.stock == if Get(data, "stock").Num? then Get(data, "stock").n else 0.0)
  {
  }

  /** A network error or a response that is not ok never yields a product. */
  lemma NetworkAndHttpErrorsFail(outcome: Outcome, id: string)
    requires !outcome.Response? || !outcome.ok
    ensures FetchDetail(outcome, id).DetailFailed?
  {
  }

  /** A non-ok response fails with its status in the message. */
  lemma DetailHttpFailure(status: nat, body: Body, id: string)
    ensures FetchDetail(Response(false, status, body), id) == DetailFailed(HttpErrorMessage(status))
  {
  }
}
