/**
 * The purchase panel (`ProductInfo`): the quantity stepper bounded by the
 * stock, the stock status with its colour, the cart buttons, and the rating
 * and review count shown under the title.
 */
module Info {
  import opened Js
  import opened Reviews

  /** `handleQuantityChange(change)`: apply the change only if it stays within `1..stock`. */
  function Step(quantity: int, change: int, stock: real): (r: int)
    ensures r == quantity || (r == quantity + change && 1 <= r && r as real <= stock)
    ensures 1 <= quantity && quantity as real <= stock ==> 1 <= r && r as real <= stock
  {
    var next := quantity + change;
    if next >= 1 && next as real <= stock then next else quantity
  }

  /** The stepper's range: `1..stock`, or exactly 1 when nothing is left to buy. */
  predicate InRange(quantity: int, stock: real) {
    if stock >= 1.0 then 1 <= quantity && quantity as real <= stock else quantity == 1
  }

  /** The quantity state of one product's panel. */
  class QuantityStepper {
    var quantity: int
    const stock: real

    predicate Valid()
      reads this
    {
      InRange(quantity, stock)
    }

    /** `useState(1)` */
    constructor (productStock: real)
      ensures stock == productStock && quantity == 1
      ensures Valid()
    {
      stock := productStock;
      quantity := 1;
    }

    method ChangeQuantity(change: int)
      requires Valid()
      modifies this
      ensures quantity == Step(old(quantity), change, stock)
      ensures Valid()
    {
      var next := quantity + change;
      if next >= 1 && next as real <= stock {
        quantity := next;
      }
    }
  }

  /** `disabled={quantity <= 1}` */
  predicate MinusDisabled(quantity: int) {
    quantity <= 1
  }

  /** `disabled={quantity >= product.stock}` */
  predicate PlusDisabled(quantity: int, stock: real) {
    quantity as real >= stock
  }

  /** The three stock bands. */
  datatype StockStatus = InStock | LowStock(count: real) | OutOfStock

  /** The nested ternary of the stock label. */
  function Status(stock: real): (s: StockStatus)
    ensures s.InStock? <==> stock > 10.0
    ensures s.LowStock? <==> 0.0 < stock <= 10.0
    ensures s.LowStock? ==> s.count == stock
    ensures s.OutOfStock? <==> stock <= 0.0
  {
    if stock > 10.0 then InStock else if stock > 0.0 then LowStock(stock) else OutOfStock
  }

  /** The text of a stock status; a low count is shown as its number. */
  function StatusLabel(s: StockStatus, countText: string): string {
    match s
    case InStock => "In Stock"
    case LowStock(_) => "Only " + countText + " left in stock"
    case OutOfStock => "Out of Stock"
  }

  /** The colour of the stock dot, by the same thresholds. */
  function StatusColour(stock: real): string {
    if stock > 10.0 then "bg-green-500" else if stock > 0.0 then "bg-yellow-500" else "bg-red-500"
  }

  /** `disabled={product.stock === 0}` on both cart buttons. */
  predicate CartDisabled(stock: real) {
    stock == 0.0
  }

  function AddToCartLabel(stock: real): string {
    if stock == 0.0 then "Out of Stock" else "Add to Cart"
  }

  function BuyLabel(stock: real): string {
    if stock == 0.0 then "Out of Stock" else "Buy This Item"
  }

  /** `Array.isArray(product.reviews) ? product.reviews.length : 0` */
  function ReviewCount(reviews: Value): nat {
    if reviews.Arr? then |reviews.elems| else 0
  }

  /** The line under the title: the rating (number or 0), the count and its noun. */
  function RatingLine(rating: Value, reviews: Value): (real, nat, string) {
    (NumberOr(rating, 0.0), ReviewCount(reviews), ReviewNoun(ReviewCount(reviews)))
  }

  // ---------------------------------------------------------------------------
  // Properties

  /** The stepper keeps its range under every change, and with nothing in stock the quantity stays 1. */
  lemma StepKeepsRange(quantity: int, change: int, stock: real)
    requires InRange(quantity, stock)
    ensures InRange(Step(quantity, change, stock), stock)
    ensures stock < 1.0 ==> Step(quantity, change, stock) == 1
  {
  }

  /**
   * For a whole-number stock within the stepper's range, a button is
   * disabled exactly when pressing it would change nothing.
   */
  lemma ButtonsDisabledIffNoEffect(quantity: int, stock: real)
    requires stock == stock.Floor as real && stock >= 1.0
    requires InRange(quantity, stock)
    ensures MinusDisabled(quantity) <==> Step(quantity, -1, stock) == quantity
    ensures PlusDisabled(quantity, stock) <==> Step(quantity, 1, stock) == quantity
  {
    if !PlusDisabled(quantity, stock) {
      assert quantity < stock.Floor;
    }
  }

  /** Both cart buttons are disabled exactly when they read "Out of Stock". */
  lemma CartLabelsMatchDisabled(stock: real)
    ensures CartDisabled(stock) <==> AddToCartLabel(stock) == "Out of Stock"
    ensures CartDisabled(stock) <==> BuyLabel(stock) == "Out of Stock"
  {
  }

  /** The colour bands are the status bands. */
  lemma ColourFollowsStatus(stock: real)
    ensures Status(stock).InStock? <==> StatusColour(stock) == "bg-green-500"
    ensures Status(stock).LowStock? <==> StatusColour(stock) == "bg-yellow-500"
    ensures Status(stock).OutOfStock? <==> StatusColour(stock) == "bg-red-500"
  {
  }

  /** The review noun is singular for exactly one review. */
  lemma ReviewNounSingular(reviews: Value)
    ensures ReviewNoun(ReviewCount(reviews)) == "review" <==> ReviewCount(reviews) == 1
    ensures !reviews.Arr? ==> ReviewCount(reviews) == 0
  {
  }
}
