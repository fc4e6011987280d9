/**
 * The stock ledger and catalogue rules of the Product class: the stock-status
 * classifier, the stock lookup, the signed stock update with its log entry,
 * product creation and the sort whitelist of the listing queries.
 */
module StockLedger {
  import opened Schema
  import opened Store

  datatype StockStatus = OutOfStock | LowStock | InStock

  /** out_of_stock up to 0, low_stock for 1..5, in_stock from 6. */
  function GetStockStatus(stock: int): (s: StockStatus)
    ensures s == OutOfStock <==> stock <= 0
    ensures s == LowStock <==> 1 <= stock <= 5
    ensures s == InStock <==> 6 <= stock
  {
    if stock <= 0 then OutOfStock
    else if stock <= 5 then LowStock
    else InStock
  }

  function StatusRank(s: StockStatus): nat {
    match s
    case OutOfStock => 0
    case LowStock => 1
    case InStock => 2
  }

  /** More stock never gives a worse status. */
  lemma StatusMonotone(a: int, b: int)
    requires a <= b
    ensures StatusRank(GetStockStatus(a)) <= StatusRank(GetStockStatus(b))
  {
  }

  datatype StockInfo = StockInfo(stock: int, isAvailable: bool, status: StockStatus)

  /** The stock column the pair addresses, 0 when that row does not exist. */
  function StockLevel(t: Tables, productId: int, variationId: Option<int>): int {
    var k := SkuOf(productId, variationId);
    if k in t.stock then t.stock[k] else 0
  }

  /** checkStock: a truthy variation id reads the variation row, anything else the product row. */
  function CheckStock(t: Tables, productId: int, variationId: Option<int>): (info: StockInfo)
    ensures Truthy(variationId) ==>
      info.stock == (if VariationSku(variationId.value) in t.stock then t.stock[VariationSku(variationId.value)] else 0)
    ensures !Truthy(variationId) ==>
      info.stock == (if ProductSku(productId) in t.stock then t.stock[ProductSku(productId)] else 0)
    ensures info.isAvailable <==> info.stock > 0
    ensures info.status == GetStockStatus(info.stock)
  {
    var s := StockLevel(t, productId, variationId);
    StockInfo(s, s > 0, GetStockStatus(s))
  }

  /** The log type follows the sign of the delta. */
  function LogTypeFor(delta: int): LogType {
    if delta > 0 then In else if delta < 0 then Out else Adjust
  }

  function Abs(x: int): nat {
    if x < 0 then -x else x
  }

  /** logStockChange: the row appended to product_stock_logs for one delta. */
  function LogEntry(productId: int, variationId: Option<int>, delta: int, reason: Reason): StockLog {
    StockLog(productId, variationId, LogTypeFor(delta), Abs(delta), reason)
  }

  /** The signed delta a log entry stands for. */
  function SignedQuantity(e: StockLog): int {
    match e.kind
    case In => e.quantity
    case Out => 0 - e.quantity as int
    case Adjust => 0
  }

  /** A log entry records its delta exactly: type by sign, magnitude as quantity. */
  lemma LogEntryRecordsDelta(productId: int, variationId: Option<int>, delta: int, reason: Reason)
    ensures SignedQuantity(LogEntry(productId, variationId, delta, reason)) == delta
    ensures LogEntry(productId, variationId, delta, reason).kind == In <==> delta > 0
    ensures LogEntry(productId, variationId, delta, reason).kind == Out <==> delta < 0
    ensures LogEntry(productId, variationId, delta, reason).kind == Adjust <==> delta == 0
    ensures LogEntry(productId, variationId, delta, reason).quantity == Abs(delta)
  {
  }

  /**
   * The stock update shared by Product.updateStock and Order.updateStockWithoutTransaction:
   * None when the new level would be negative; otherwise the addressed row (if it
   * exists) takes the new level and one log entry is appended.
   */
  function StockMoved(t: Tables, productId: int, variationId: Option<int>, delta: int, reason: Reason): Option<Tables> {
    var newStock := CheckStock(t, productId, variationId).stock + delta;
    if newStock < 0 then None
    else
      var k := SkuOf(productId, variationId);
      Some(t.(stock := if k in t.stock then t.stock[k := newStock] else t.stock,
              stockLogs := t.stockLogs + [LogEntry(productId, variationId, delta, reason)]))
  }

  /** A delta is refused exactly when it would drive the addressed stock below zero. */
  lemma StockMovedRefusesNegative(t: Tables, productId: int, variationId: Option<int>, delta: int, reason: Reason)
    ensures StockMoved(t, productId, variationId, delta, reason).None? <==> StockLevel(t, productId, variationId) + delta < 0
  {
  }

  /** On success only the addressed row changes, by exactly delta, and exactly one entry is logged. */
  lemma StockMovedEffect(t: Tables, productId: int, variationId: Option<int>, delta: int, reason: Reason)
    requires StockMoved(t, productId, variationId, delta, reason).Some?
    ensures var t' := StockMoved(t, productId, variationId, delta, reason).value;
      var k := SkuOf(productId, variationId);
      && t'.stock.Keys == t.stock.Keys
      && (k in t.stock ==> t'.stock[k] == t.stock[k] + delta)
      && (forall k' :: k' in t.stock && k' != k ==> t'.stock[k'] == t.stock[k'])
      && t'.stockLogs == t.stockLogs + [LogEntry(productId, variationId, delta, reason)]
      && t' == t.(stock := t'.stock, stockLogs := t'.stockLogs)
  {
  }

  /** Stock never goes negative through the ledger. */
  lemma StockMovedKeepsNonNegative(t: Tables, productId: int, variationId: Option<int>, delta: int, reason: Reason)
    requires StockNonNegative(t)
    requires StockMoved(t, productId, variationId, delta, reason).Some?
    ensures StockNonNegative(StockMoved(t, productId, variationId, delta, reason).value)
  {
  }

  /** logStockChange: append one entry to product_stock_logs. */
  method LogStockChange(db: Database, productId: int, variationId: Option<int>, delta: int, reason: Reason)
    modifies db
    ensures db.data == old(db.data).(stockLogs := old(db.data).stockLogs + [LogEntry(productId, variationId, delta, reason)])
    ensures db.savepoint == old(db.savepoint)
  {
    var kind := if delta > 0 then In else if delta < 0 then Out else Adjust;
    var magnitude := if delta < 0 then -delta else delta;
    db.data := db.data.(stockLogs := db.data.stockLogs + [StockLog(productId, variationId, kind, magnitude, reason)]);
  }

  /**
   * updateStock: begins a transaction only when none is open and then commits or
   * rolls back only that one, so an enclosing transaction is left open.
   */
  method UpdateStock(db: Database, productId: int, variationId: Option<int>, delta: int, reason: Reason) returns (ok: bool)
    modifies db
    ensures ok <==> StockMoved(old(db.data), productId, variationId, delta, reason).Some?
    ensures db.data == if ok then StockMoved(old(db.data), productId, variationId, delta, reason).value else old(db.data)
    ensures db.savepoint == old(db.savepoint)
  {
    var started := false;
    if !db.InTransaction() {
      db.BeginTransaction();
      started := true;
    }
    var current := CheckStock(db.data, productId, variationId).stock;
    var newStock := current + delta;
    if newStock < 0 {
      if started {
        db.Rollback();
      }
      return false;
    }
    var k := SkuOf(productId, variationId);
    if k in db.data.stock {
      db.data := db.data.(stock := db.data.stock[k := newStock]);
    }
    LogStockChange(db, productId, variationId, delta, reason);
    if started {
      db.Commit();
    }
    return true;
  }

  /** getPreorderInfo: the flag and lead-time text of a product, 0 and NULL when the row is missing. */
  function PreorderFlag(t: Tables, productId: int): int {
    if productId in t.products then t.products[productId].preorderFlag else 0
  }

  function PreorderPeriod(t: Tables, productId: int): Option<seq<byte>> {
    if productId in t.products then t.products[productId].preorderPeriod else None
  }

  /** The order and cart code treat a product as made to order when its flag is truthy. */
  predicate IsPreorder(t: Tables, productId: int) {
    PreorderFlag(t, productId) != 0
  }

  lemma MissingProductIsNotPreorder(t: Tables, productId: int)
    requires productId !in t.products
    ensures !IsPreorder(t, productId) && PreorderPeriod(t, productId) == None
  {
  }

  /** The admin form behind Product.create, after sanitising. */
  datatype ProductForm = ProductForm(
    name: string,
    price: int,
    categoryId: string,
    image: string,
    stock: int,
    preorderFlag: int,
    preorderPeriod: seq<byte>)

  predicate EmptyBytes(s: seq<byte>) {
    s == [] || s == [0x30]
  }

  function NullIfEmpty(s: string): Option<string> {
    if EmptyText(s) then None else Some(s)
  }

  /** The stock column Product.create writes: 0 for a product whose flag equals 1. */
  function InitialStock(f: ProductForm): int {
    if f.preorderFlag == 1 then 0 else f.stock
  }

  function ProductRowOf(f: ProductForm): Product {
    Product(f.name, f.price, NullIfEmpty(f.categoryId), NullIfEmpty(f.image), f.preorderFlag,
            if EmptyBytes(f.preorderPeriod) then None else Some(f.preorderPeriod))
  }

  /** The tables after Product.create: one products row and its stock row under the next id. */
  function ProductCreated(t: Tables, f: ProductForm): Tables {
    t.(products := t.products[t.nextProductId := ProductRowOf(f)],
       stock := t.stock[ProductSku(t.nextProductId) := InitialStock(f)],
       nextProductId := t.nextProductId + 1)
  }

  /**
   * What the readers of the catalogue see of a created product. create zeroes
   * the stock only for a flag equal to 1, while every reader takes any non-zero
   * flag as made to order: a product with flag 2 is made to order and keeps its
   * stock. Empty image, category and period read as NULL, and the rows of
   * every other product and SKU read as before.
   */
  lemma CreatedProductReads(t: Tables, f: ProductForm)
    ensures var id := t.nextProductId;
      var r := ProductCreated(t, f);
      && (IsPreorder(r, id) <==> f.preorderFlag != 0)
      && (f.preorderFlag == 1 ==> CheckStock(r, id, None).stock == 0 && !CheckStock(r, id, None).isAvailable)
      && (f.preorderFlag != 1 ==> CheckStock(r, id, None).stock == f.stock)
      && (f.preorderFlag != 0 && f.preorderFlag != 1 ==> IsPreorder(r, id) && CheckStock(r, id, None).stock == f.stock)
      && (PreorderPeriod(r, id) == None <==> EmptyBytes(f.preorderPeriod))
      && (PreorderPeriod(r, id) != None ==> PreorderPeriod(r, id) == Some(f.preorderPeriod))
      && (r.products[id].image == None <==> EmptyText(f.image))
      && (r.products[id].categoryId == None <==> EmptyText(f.categoryId))
      && r.nextProductId == id + 1
    ensures forall q :: q != t.nextProductId ==>
      PreorderFlag(ProductCreated(t, f), q) == PreorderFlag(t, q) && PreorderPeriod(ProductCreated(t, f), q) == PreorderPeriod(t, q)
    ensures forall q, v :: SkuOf(q, v) != ProductSku(t.nextProductId) ==> StockLevel(ProductCreated(t, f), q, v) == StockLevel(t, q, v)
  {
  }

  /** Product.create: insert one products row with the next id. */
  method CreateProduct(db: Database, f: ProductForm) returns (id: int)
    modifies db
    ensures id == old(db.data).nextProductId
    ensures db.data == ProductCreated(old(db.data), f)
    ensures db.savepoint == old(db.savepoint)
  {
    var stock := f.stock;
    if f.preorderFlag == 1 {
      stock := 0;
    }
    var image := if EmptyText(f.image) then None else Some(f.image);
    var category := if EmptyText(f.categoryId) then None else Some(f.categoryId);
    var period := if EmptyBytes(f.preorderPeriod) then None else Some(f.preorderPeriod);
    id := db.data.nextProductId;
    db.data := db.data.(
      products := db.data.products[id := Product(f.name, f.price, category, image, f.preorderFlag, period)],
      stock := db.data.stock[ProductSku(id) := stock],
      nextProductId := id + 1);
  }

  const SortColumns: set<string> := {"name", "price", "created"}
  const SortOrders: set<string> := {"ASC", "DESC"}

  /** The sort whitelist of getByCategory, getByPriceRange and readWithSorting. */
  function SortColumn(sortBy: string): string {
    if sortBy in SortColumns then sortBy else "created"
  }

  function SortOrder(sortOrder: string): string {
    if sortOrder in SortOrders then sortOrder else "DESC"
  }

  /** Only whitelisted text reaches the ORDER BY clause; whitelisted input passes unchanged, anything else falls back. */
  lemma SortWhitelist(sortBy: string, sortOrder: string)
    ensures SortColumn(sortBy) in SortColumns && SortOrder(sortOrder) in SortOrders
    ensures SortColumn(sortBy) == sortBy <==> sortBy in SortColumns
    ensures sortBy !in SortColumns ==> SortColumn(sortBy) == "created"
    ensures SortOrder(sortOrder) == sortOrder <==> sortOrder in SortOrders
    ensures sortOrder !in SortOrders ==> SortOrder(sortOrder) == "DESC"
    ensures SortColumn(SortColumn(sortBy)) == SortColumn(sortBy) && SortOrder(SortOrder(sortOrder)) == SortOrder(sortOrder)
  {
  }
}
