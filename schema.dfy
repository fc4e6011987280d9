/**
 * The storefront's database as one value: the products, product_variations,
 * product_stock_logs, orders, order_items, preorders, cart, payments, wishlist
 * and reviews tables, with their auto-increment counters.
 */
module Schema {

  newtype byte = x: int | 0 <= x < 256

  datatype Option<T> = None | Some(value: T) {
    function GetOr(default: T): T {
      if Some? then value else default
    }
  }

  /** PHP truthiness of a nullable integer id: NULL and 0 are false. */
  predicate Truthy(v: Option<int>) {
    v.Some? && v.value != 0
  }

  /** PHP `empty()` of a string taken from a form field. */
  predicate EmptyText(s: string) {
    s == "" || s == "0"
  }

  /** A stock-keeping unit: the stock column of a products row or of a product_variations row. */
  datatype Sku = ProductSku(productId: int) | VariationSku(variationId: int)

  /** Which row a (product id, variation id) pair addresses: the variation when its id is truthy. */
  function SkuOf(productId: int, variationId: Option<int>): Sku {
    if Truthy(variationId) then VariationSku(variationId.value) else ProductSku(productId)
  }

  /** A products row without its stock column (kept in `Tables.stock`). */
  datatype Product = Product(
    name: string,
    price: int,
    categoryId: Option<string>,
    image: Option<string>,
    preorderFlag: int,
    preorderPeriod: Option<seq<byte>>)

  /** A product_variations row without its stock column. */
  datatype Variation = Variation(productId: int, priceAdjustment: Option<int>)

  datatype LogType = In | Out | Adjust

  /** The free-text reason of a stock log entry; the two texts the order code writes carry the order id. */
  datatype Reason = OrderOut(orderId: int) | CancelReturn(orderId: int) | Given(text: string)

  datatype StockLog = StockLog(productId: int, variationId: Option<int>, kind: LogType, quantity: nat, reason: Reason)

  datatype OrderRow = OrderRow(userId: int, totalAmount: int, shippingAddress: string, paymentMethod: string, status: string)

  datatype OrderItem = OrderItem(orderId: int, productId: int, quantity: int, price: int, variationId: Option<int>)

  datatype PreorderRow = PreorderRow(
    userId: int,
    productId: int,
    variationId: Option<int>,
    quantity: int,
    estimatedDelivery: int,
    status: string)

  datatype CartRow = CartRow(id: int, userId: int, productId: int, quantity: int, variationId: Option<int>)

  datatype PaymentRow = PaymentRow(orderId: int, paymentMethod: string, status: string, transactionPrefix: string)

  datatype WishlistRow = WishlistRow(id: int, userId: int, productId: int)

  datatype ReviewRow = ReviewRow(id: int, userId: int, productId: int, rating: int, comment: string)

  /**
   * The database. Maps are keyed by row id; tables that are read in row order
   * or looked up by a non-key column are sequences in insertion order.
   * `orderStatusDefault` is the column default that a new orders row takes.
   */
  datatype Tables = Tables(
    products: map<int, Product>,
    variations: map<int, Variation>,
    stock: map<Sku, int>,
    stockLogs: seq<StockLog>,
    orders: map<int, OrderRow>,
    orderItems: seq<OrderItem>,
    preorders: map<int, PreorderRow>,
    cart: seq<CartRow>,
    payments: seq<PaymentRow>,
    wishlist: seq<WishlistRow>,
    reviews: seq<ReviewRow>,
    nextProductId: int,
    nextOrderId: int,
    nextPreorderId: int,
    nextCartId: int,
    nextWishlistId: int,
    nextReviewId: int,
    orderStatusDefault: string)

  /** The outcome of an operation that reports success: the flag it returns and the resulting tables. */
  datatype Step = Step(ok: bool, data: Tables)

  /** No stock column holds a negative number. */
  ghost predicate StockNonNegative(t: Tables) {
    forall k :: k in t.stock ==> t.stock[k] >= 0
  }
}

/** The PDO connection: the current database and, while a transaction is open, its savepoint. */
module Store {
  import opened Schema

  class Database {
    var data: Tables
    var savepoint: Option<Tables>

    constructor (initial: Tables)
      ensures data == initial && savepoint == None
    {
      data := initial;
      savepoint := None;
    }

    predicate InTransaction()
      reads this
    {
      savepoint.Some?
    }

    method BeginTransaction()
      requires !InTransaction()
      modifies this
      ensures data == old(data) && savepoint == Some(old(data))
    {
      savepoint := Some(data);
    }

    method Commit()
      requires InTransaction()
      modifies this
      ensures data == old(data) && savepoint == None
    {
      savepoint := None;
    }

    method Rollback()
      requires InTransaction()
      modifies this
      ensures data == old(savepoint).value && savepoint == None
    {
      data := savepoint.value;
      savepoint := None;
    }
  }
}
