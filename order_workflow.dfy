/**
 * The Order class: order creation from the user's cart (pre-flight stock check,
 * total, one order item per line, a preorder row or a stock decrement per line,
 * all inside one transaction), the status overwrite, and the cancel-time stock
 * restore.
 */
module OrderWorkflow {
  import opened Schema
  import opened Store
  import opened StockLedger
  import opened CartTable
  import LeadTime

  // ---------------------------------------------------------------------------
  // Specification of create()

  /** The pre-flight test of one cart line: made-to-order lines pass, others need stock > 0 and stock >= quantity. */
  predicate LineAvailable(t: Tables, line: CartLine) {
    IsPreorder(t, line.productId)
    || (CheckStock(t, line.productId, line.variationId).isAvailable
        && CheckStock(t, line.productId, line.variationId).stock >= line.quantity)
  }

  predicate PreflightOk(t: Tables, lines: seq<CartLine>) {
    forall k :: 0 <= k < |lines| ==> LineAvailable(t, lines[k])
  }

  /** The order_items row of a line: the unit price with the variation's adjustment, fixed at creation. */
  function ItemOf(orderId: int, line: CartLine): OrderItem {
    OrderItem(orderId, line.productId, line.quantity, UnitPrice(line), line.variationId)
  }

  function ItemsFor(orderId: int, lines: seq<CartLine>): (r: seq<OrderItem>)
    ensures |r| == |lines|
    ensures forall i :: 0 <= i < |lines| ==> r[i] == ItemOf(orderId, lines[i])
  {
    if |lines| == 0 then [] else [ItemOf(orderId, lines[0])] + ItemsFor(orderId, lines[1..])
  }

  /** The preorders row createPreorder inserts: status pending, delivery from the product's lead time. */
  function PreorderOf(t: Tables, userId: int, line: CartLine, today: int): PreorderRow {
    PreorderRow(userId, line.productId, line.variationId, line.quantity,
                LeadTime.EstimatedDelivery(PreorderPeriod(t, line.productId), today), "pending")
  }

  /** One iteration of the insert loop: the order item, then a preorder row or a stock decrement. */
  function LinePlaced(t: Tables, orderId: int, userId: int, line: CartLine, today: int): Option<Tables> {
    var t1 := t.(orderItems := t.orderItems + [ItemOf(orderId, line)]);
    if IsPreorder(t1, line.productId) then
      Some(t1.(preorders := t1.preorders[t1.nextPreorderId := PreorderOf(t1, userId, line, today)],
               nextPreorderId := t1.nextPreorderId + 1))
    else StockMoved(t1, line.productId, line.variationId, -line.quantity, OrderOut(orderId))
  }

  /** The insert loop; None when a decrement would go negative (the exception). */
  function LinesPlaced(t: Tables, orderId: int, userId: int, lines: seq<CartLine>, today: int): Option<Tables>
    decreases |lines|
  {
    if |lines| == 0 then Some(t)
    else match LinePlaced(t, orderId, userId, lines[0], today)
      case None => None
      case Some(t1) => LinesPlaced(t1, orderId, userId, lines[1..], today)
  }

  /** The orders row create() inserts; its status is the column default. */
  function OrderInserted(t: Tables, userId: int, total: int, address: string, payment: string): Tables {
    t.(orders := t.orders[t.nextOrderId := OrderRow(userId, total, address, payment, t.orderStatusDefault)],
       nextOrderId := t.nextOrderId + 1)
  }

  datatype Creation = ShortStock | EmptyCart | Placed(orderId: int, data: Tables) | LineFailed

  /** What create() does with the cart of userId. */
  function Creating(t: Tables, userId: int, address: string, payment: string, today: int): Creation {
    var lines := Items(t, userId);
    if !PreflightOk(t, lines) then ShortStock
    else if |lines| == 0 then EmptyCart
    else
      var t1 := OrderInserted(t, userId, Sum(lines), address, payment);
      match LinesPlaced(t1, t.nextOrderId, userId, lines, today)
      case Some(t2) => Placed(t.nextOrderId, t2)
      case None => LineFailed
  }

  // ---------------------------------------------------------------------------
  // The methods

  /** The result of create(): the new order id, false, or an exception. */
  datatype CreateResult = Created(orderId: int) | NotCreated | Threw

  /** addOrderItem. */
  method AddOrderItem(db: Database, orderId: int, productId: int, quantity: int, price: int, variationId: Option<int>)
    modifies db
    ensures db.data == old(db.data).(orderItems := old(db.data).orderItems + [OrderItem(orderId, productId, quantity, price, variationId)])
    ensures db.savepoint == old(db.savepoint)
  {
    db.data := db.data.(orderItems := db.data.orderItems + [OrderItem(orderId, productId, quantity, price, variationId)]);
  }

  /** createPreorder. */
  method CreatePreorder(db: Database, userId: int, line: CartLine, today: int)
    modifies db
    ensures db.data == old(db.data).(
      preorders := old(db.data).preorders[old(db.data).nextPreorderId := PreorderOf(old(db.data), userId, line, today)],
      nextPreorderId := old(db.data).nextPreorderId + 1)
    ensures db.savepoint == old(db.savepoint)
  {
    var period := PreorderPeriod(db.data, line.productId);
    var estimated := LeadTime.EstimatedDelivery(period, today);
    var id := db.data.nextPreorderId;
    db.data := db.data.(
      preorders := db.data.preorders[id := PreorderRow(userId, line.productId, line.variationId, line.quantity, estimated, "pending")],
      nextPreorderId := id + 1);
  }

  /** updateStockWithoutTransaction: the ledger update inside the caller's transaction; `false` stands for the exception. */
  method UpdateStockWithoutTransaction(db: Database, productId: int, variationId: Option<int>, delta: int, reason: Reason) returns (ok: bool)
    modifies db
    ensures ok <==> StockMoved(old(db.data), productId, variationId, delta, reason).Some?
    ensures db.data == if ok then StockMoved(old(db.data), productId, variationId, delta, reason).value else old(db.data)
    ensures db.savepoint == old(db.savepoint)
  {
    var current := CheckStock(db.data, productId, variationId).stock;
    var newStock := current + delta;
    if newStock < 0 {
      return false;
    }
    var k := SkuOf(productId, variationId);
    if k in db.data.stock {
      db.data := db.data.(stock := db.data.stock[k := newStock]);
    }
    db.data := db.data.(stockLogs := db.data.stockLogs + [LogEntry(productId, variationId, delta, reason)]);
    return true;
  }

  /**
   * The pre-flight loop of create(): every stocked line must have stock > 0 and
   * at least its quantity; the running total adds unit price times quantity.
   */
  method Preflight(t: Tables, lines: seq<CartLine>) returns (ok: bool, total: int)
    ensures ok == PreflightOk(t, lines)
    ensures ok ==> total == Sum(lines)
  {
    total := 0;
    var i := 0;
    while i < |lines|
      invariant 0 <= i <= |lines|
      invariant forall k :: 0 <= k < i ==> LineAvailable(t, lines[k])
      invariant total + Sum(lines[i..]) == Sum(lines)
    {
      assert lines[i..][1..] == lines[i + 1..];
      var line := lines[i];
      if PreorderFlag(t, line.productId) == 0 {
        var info := CheckStock(t, line.productId, line.variationId);
        if !info.isAvailable || info.stock < line.quantity {
          return false, total;
        }
      }
      var price := line.price.GetOr(0);
      if line.priceAdjustment.Some? {
        price := price + line.priceAdjustment.value;
      }
      total := total + price * line.quantity;
      i := i + 1;
    }
    return true, total;
  }

  /** One iteration of the insert loop. */
  method PlaceLine(db: Database, orderId: int, userId: int, line: CartLine, today: int) returns (ok: bool)
    modifies db
    ensures ok == LinePlaced(old(db.data), orderId, userId, line, today).Some?
    ensures ok ==> db.data == LinePlaced(old(db.data), orderId, userId, line, today).value
    ensures db.savepoint == old(db.savepoint)
  {
    var price := line.price.GetOr(0);
    if line.priceAdjustment.Some? {
      price := price + line.priceAdjustment.value;
    }
    AddOrderItem(db, orderId, line.productId, line.quantity, price, line.variationId);
    if PreorderFlag(db.data, line.productId) != 0 {
      CreatePreorder(db, userId, line, today);
      ok := true;
    } else {
      ok := UpdateStockWithoutTransaction(db, line.productId, line.variationId, -line.quantity, OrderOut(orderId));
    }
  }

  /** The insert loop of create(); `false` stands for the exception of a failing decrement. */
  method InsertLines(db: Database, orderId: int, userId: int, lines: seq<CartLine>, today: int) returns (ok: bool)
    modifies db
    ensures ok == LinesPlaced(old(db.data), orderId, userId, lines, today).Some?
    ensures ok ==> db.data == LinesPlaced(old(db.data), orderId, userId, lines, today).value
    ensures db.savepoint == old(db.savepoint)
  {
    var i := 0;
    while i < |lines|
      invariant 0 <= i <= |lines|
      invariant db.savepoint == old(db.savepoint)
      invariant LinesPlaced(db.data, orderId, userId, lines[i..], today) == LinesPlaced(old(db.data), orderId, userId, lines, today)
    {
      assert lines[i..][1..] == lines[i + 1..];
      var placed := PlaceLine(db, orderId, userId, lines[i], today);
      if !placed {
        return false;
      }
      i := i + 1;
    }
    return true;
  }

  /**
   * create(). The pre-flight loop throws before anything is written; an empty
   * cart returns false; otherwise a transaction is begun when none is open, the
   * order row and the lines are inserted, and the transaction is committed. An
   * exception in the insert loop rolls back whatever transaction is open.
   */
  method Create(db: Database, userId: int, address: string, payment: string, today: int) returns (r: CreateResult)
    modifies db
    ensures Creating(old(db.data), userId, address, payment, today).ShortStock? ==>
      r == Threw && db.data == old(db.data) && db.savepoint == old(db.savepoint)
    ensures Creating(old(db.data), userId, address, payment, today).EmptyCart? ==>
      r == NotCreated && db.data == old(db.data) && db.savepoint == old(db.savepoint)
    ensures Creating(old(db.data), userId, address, payment, today).Placed? ==>
      && r == Created(Creating(old(db.data), userId, address, payment, today).orderId)
      && db.data == Creating(old(db.data), userId, address, payment, today).data
      && db.savepoint == None
    ensures Creating(old(db.data), userId, address, payment, today).LineFailed? ==>
      && r == Threw
      && db.data == (if old(db.savepoint).Some? then old(db.savepoint).value else old(db.data))
      && db.savepoint == None
  {
    ghost var t0 := db.data;
    var lines := Items(db.data, userId);
    var ok, total := Preflight(db.data, lines);
    if !ok {
      CreatingShort(t0, userId, address, payment, today);
      return Threw;
    }
    if |lines| == 0 {
      CreatingEmpty(t0, userId, address, payment, today);
      return NotCreated;
    }
    CreatingInserts(t0, userId, address, payment, today);
    if !db.InTransaction() {
      db.BeginTransaction();
    }
    var orderId := db.data.nextOrderId;
    db.data := OrderInserted(db.data, userId, total, address, payment);
    var placed := InsertLines(db, orderId, userId, lines, today);
    if !placed {
      db.Rollback();
      return Threw;
    }
    db.Commit();
    return Created(orderId);
  }

  lemma CreatingShort(t: Tables, userId: int, address: string, payment: string, today: int)
    requires !PreflightOk(t, Items(t, userId))
    ensures Creating(t, userId, address, payment, today) == ShortStock
  {
  }

  lemma CreatingEmpty(t: Tables, userId: int, address: string, payment: string, today: int)
    requires PreflightOk(t, Items(t, userId)) && |Items(t, userId)| == 0
    ensures Creating(t, userId, address, payment, today) == EmptyCart
  {
  }

  /** Past the pre-flight check and with lines in the cart, create() is decided by the insert loop. */
  lemma CreatingInserts(t: Tables, userId: int, address: string, payment: string, today: int)
    requires PreflightOk(t, Items(t, userId)) && |Items(t, userId)| > 0
    ensures var placed := LinesPlaced(OrderInserted(t, userId, Sum(Items(t, userId)), address, payment), t.nextOrderId, userId, Items(t, userId), today);
      Creating(t, userId, address, payment, today) == if placed.Some? then Placed(t.nextOrderId, placed.value) else LineFailed
  {
  }

  /** updateStatus: overwrite the status of one order, whatever it was; no row, no change. */
  function OrderStatusSet(t: Tables, orderId: int, status: string): Tables {
    if orderId in t.orders then t.(orders := t.orders[orderId := t.orders[orderId].(status := status)]) else t
  }

  method UpdateStatus(db: Database, orderId: int, status: string) returns (ok: bool)
    modifies db
    ensures ok && db.data == OrderStatusSet(old(db.data), orderId, status)
    ensures db.savepoint == old(db.savepoint)
  {
    if orderId in db.data.orders {
      db.data := db.data.(orders := db.data.orders[orderId := db.data.orders[orderId].(status := status)]);
    }
    return true;
  }

  lemma OrderStatusSetEffect(t: Tables, orderId: int, status: string)
    ensures var t' := OrderStatusSet(t, orderId, status);
      && t'.orders.Keys == t.orders.Keys
      && (orderId in t.orders ==> t'.orders[orderId] == t.orders[orderId].(status := status))
      && (forall k :: k in t.orders && k != orderId ==> t'.orders[k] == t.orders[k])
      && t' == t.(orders := t'.orders)
  {
  }

  // ---------------------------------------------------------------------------
  // Specification of restoreStockOnCancel()

  /** `SELECT * FROM order_items WHERE order_id = orderId`, in table order. */
  function ItemsOf(items: seq<OrderItem>, orderId: int): (r: seq<OrderItem>)
    ensures forall x :: x in r <==> x in items && x.orderId == orderId
  {
    if |items| == 0 then []
    else (if items[0].orderId == orderId then [items[0]] else []) + ItemsOf(items[1..], orderId)
  }

  /**
   * The preorder cancel of the restore: every preorder of that user and product
   * whose status is not cancelled, whichever order it came from. A NULL user id
   * matches no row.
   */
  function PreordersCancelled(preorders: map<int, PreorderRow>, productId: int, userId: Option<int>): map<int, PreorderRow> {
    map k | k in preorders ::
      if userId.Some? && preorders[k].productId == productId && preorders[k].userId == userId.value
         && preorders[k].status != "cancelled"
      then preorders[k].(status := "cancelled") else preorders[k]
  }

  /** One iteration of the restore loop. */
  function ItemRestored(t: Tables, orderId: int, userId: Option<int>, item: OrderItem): Option<Tables> {
    if !IsPreorder(t, item.productId) then StockMoved(t, item.productId, item.variationId, item.quantity, CancelReturn(orderId))
    else Some(t.(preorders := PreordersCancelled(t.preorders, item.productId, userId)))
  }

  /** The restore loop: on an exception, the state reached before the failing item. */
  function ItemsRestored(t: Tables, orderId: int, userId: Option<int>, items: seq<OrderItem>): Step
    decreases |items|
  {
    if |items| == 0 then Step(true, t)
    else match ItemRestored(t, orderId, userId, items[0])
      case None => Step(false, t)
      case Some(t1) => ItemsRestored(t1, orderId, userId, items[1..])
  }

  /** restoreStockOnCancel without its transaction handling. There is no check of the order's status. */
  function Restored(t: Tables, orderId: int, userId: Option<int>): Step {
    var r := ItemsRestored(t, orderId, userId, ItemsOf(t.orderItems, orderId));
    if r.ok then Step(true, OrderStatusSet(r.data, orderId, "cancelled")) else r
  }

  /** The loop of restoreStockOnCancel; `false` stands for the exception of the failing item. */
  method RestoreItems(db: Database, orderId: int, userId: Option<int>, items: seq<OrderItem>) returns (ok: bool)
    modifies db
    ensures Step(ok, db.data) == ItemsRestored(old(db.data), orderId, userId, items)
    ensures db.savepoint == old(db.savepoint)
  {
    var i := 0;
    while i < |items|
      invariant 0 <= i <= |items|
      invariant db.savepoint == old(db.savepoint)
      invariant ItemsRestored(db.data, orderId, userId, items[i..]) == ItemsRestored(old(db.data), orderId, userId, items)
    {
      assert items[i..][1..] == items[i + 1..];
      var item := items[i];
      if PreorderFlag(db.data, item.productId) == 0 {
        var moved := UpdateStockWithoutTransaction(db, item.productId, item.variationId, item.quantity, CancelReturn(orderId));
        if !moved {
          return false;
        }
      } else {
        db.data := db.data.(preorders := PreordersCancelled(db.data.preorders, item.productId, userId));
      }
      i := i + 1;
    }
    return true;
  }

  /**
   * restoreStockOnCancel. `userId` is the Order object's user id field. When it
   * opened the transaction, failure rolls back; inside a caller's transaction the
   * partial work stays for the caller to commit or roll back.
   */
  method RestoreStockOnCancel(db: Database, orderId: int, userId: Option<int>) returns (ok: bool)
    modifies db
    ensures ok == Restored(old(db.data), orderId, userId).ok
    ensures !old(db.InTransaction()) ==>
      db.savepoint == None && db.data == (if ok then Restored(old(db.data), orderId, userId).data else old(db.data))
    ensures old(db.InTransaction()) ==>
      db.savepoint == old(db.savepoint) && db.data == Restored(old(db.data), orderId, userId).data
  {
    var started := false;
    if !db.InTransaction() {
      db.BeginTransaction();
      started := true;
    }
    var items := ItemsOf(db.data.orderItems, orderId);
    ok := RestoreItems(db, orderId, userId, items);
    if !ok {
      if started {
        db.Rollback();
      }
      return false;
    }
    var _ := UpdateStatus(db, orderId, "cancelled");
    if started {
      db.Commit();
    }
    return true;
  }

  // ---------------------------------------------------------------------------
  // Properties of create()

  /** create() throws before writing exactly when some stocked line has stock <= 0 or below its quantity. */
  lemma ShortStockIff(t: Tables, userId: int, address: string, payment: string, today: int)
    ensures Creating(t, userId, address, payment, today).ShortStock? <==>
      exists k :: 0 <= k < |Items(t, userId)| && !IsPreorder(t, Items(t, userId)[k].productId)
        && (StockLevel(t, Items(t, userId)[k].productId, Items(t, userId)[k].variationId) <= 0
            || StockLevel(t, Items(t, userId)[k].productId, Items(t, userId)[k].variationId) < Items(t, userId)[k].quantity)
    ensures Creating(t, userId, address, payment, today).EmptyCart? <==> Items(t, userId) == []
  {
  }

  /** Units of SKU k that the stocked lines ask for. */
  function Demand(c: Tables, lines: seq<CartLine>, k: Sku): int {
    if |lines| == 0 then 0
    else (if !IsPreorder(c, lines[0].productId) && SkuOf(lines[0].productId, lines[0].variationId) == k
          then lines[0].quantity else 0) + Demand(c, lines[1..], k)
  }

  /** Units of SKU k that the stocked items give back. */
  function Returned(c: Tables, items: seq<OrderItem>, k: Sku): int {
    if |items| == 0 then 0
    else (if !IsPreorder(c, items[0].productId) && SkuOf(items[0].productId, items[0].variationId) == k
          then items[0].quantity else 0) + Returned(c, items[1..], k)
  }

  /** The product_stock_logs entry one cart line writes: an `out` of its quantity for a stocked line, nothing for a made-to-order one. */
  function OutLog(c: Tables, orderId: int, line: CartLine): seq<StockLog> {
    if IsPreorder(c, line.productId) then []
    else [LogEntry(line.productId, line.variationId, -line.quantity, OrderOut(orderId))]
  }

  /** The entries the insert loop writes, one per stocked line, in line order. */
  function OutLogs(c: Tables, orderId: int, lines: seq<CartLine>): seq<StockLog> {
    if |lines| == 0 then [] else OutLog(c, orderId, lines[0]) + OutLogs(c, orderId, lines[1..])
  }

  /** The entry one order item writes on cancel: an `in` of its quantity for a stocked item, nothing otherwise. */
  function InLog(c: Tables, orderId: int, item: OrderItem): seq<StockLog> {
    if IsPreorder(c, item.productId) then []
    else [LogEntry(item.productId, item.variationId, item.quantity, CancelReturn(orderId))]
  }

  /** The entries the restore loop writes, one per stocked item, in item order. */
  function InLogs(c: Tables, orderId: int, items: seq<OrderItem>): seq<StockLog> {
    if |items| == 0 then [] else InLog(c, orderId, items[0]) + InLogs(c, orderId, items[1..])
  }

  /** The reversal of a log: for each entry, in order, an entry of the opposite delta on the same SKU, as a cancel of orderId. */
  function Undone(logs: seq<StockLog>, orderId: int): seq<StockLog> {
    if |logs| == 0 then []
    else [LogEntry(logs[0].productId, logs[0].variationId, -SignedQuantity(logs[0]), CancelReturn(orderId))]
         + Undone(logs[1..], orderId)
  }

  /** Each reversing entry names the SKU of its entry and gives back exactly its delta. */
  lemma {:induction false} UndoneReverses(logs: seq<StockLog>, orderId: int, i: nat)
    requires i < |logs|
    ensures |Undone(logs, orderId)| == |logs|
    ensures var u := Undone(logs, orderId)[i];
      && u.productId == logs[i].productId && u.variationId == logs[i].variationId
      && SignedQuantity(u) == -SignedQuantity(logs[i]) && u.reason == CancelReturn(orderId)
    decreases |logs|
  {
    var u0 := LogEntry(logs[0].productId, logs[0].variationId, -SignedQuantity(logs[0]), CancelReturn(orderId));
    LogEntryRecordsDelta(logs[0].productId, logs[0].variationId, -SignedQuantity(logs[0]), CancelReturn(orderId));
    if i == 0 {
      if |logs| > 1 {
        UndoneReverses(logs[1..], orderId, 0);
      }
    } else {
      UndoneReverses(logs[1..], orderId, i - 1);
      assert logs[1..][i - 1] == logs[i];
    }
  }

  /** The cancel-time entries of an order's items are the reversal of the entries its lines wrote. */
  lemma {:induction false} InLogsUndoOutLogs(c: Tables, orderId: int, lines: seq<CartLine>)
    ensures InLogs(c, orderId, ItemsFor(orderId, lines)) == Undone(OutLogs(c, orderId, lines), orderId)
    decreases |lines|
  {
    if |lines| > 0 {
      var line := lines[0];
      var items := ItemsFor(orderId, lines);
      ItemsForStep(orderId, lines);
      assert items[0] == ItemOf(orderId, line) && items[1..] == ItemsFor(orderId, lines[1..]);
      InLogsUndoOutLogs(c, orderId, lines[1..]);
      var out := OutLogs(c, orderId, lines);
      if IsPreorder(c, line.productId) {
        assert out == OutLogs(c, orderId, lines[1..]);
      } else {
        var e := LogEntry(line.productId, line.variationId, -line.quantity, OrderOut(orderId));
        LogEntryRecordsDelta(line.productId, line.variationId, -line.quantity, OrderOut(orderId));
        assert out == [e] + OutLogs(c, orderId, lines[1..]);
        assert out[0] == e && out[1..] == OutLogs(c, orderId, lines[1..]);
      }
    }
  }

  /** The tables the insert loop never writes. */
  predicate LoopFrame(a: Tables, b: Tables) {
    && a.products == b.products && a.variations == b.variations && a.orders == b.orders
    && a.cart == b.cart && a.payments == b.payments && a.wishlist == b.wishlist && a.reviews == b.reviews
    && a.nextOrderId == b.nextOrderId && a.nextCartId == b.nextCartId
  }

  /**
   * One line of the insert loop: its order item is appended; a made-to-order
   * line adds a pending preorder row with the lead-time estimate and leaves stock
   * and the stock log alone; a stocked line lowers its own SKU by its quantity and
   * logs that as one `out` entry of the order.
   */
  lemma LinePlacedEffect(t: Tables, orderId: int, userId: int, line: CartLine, today: int)
    requires LinePlaced(t, orderId, userId, line, today).Some?
    ensures var t1 := LinePlaced(t, orderId, userId, line, today).value;
      && LoopFrame(t1, t)
      && t1.orderItems == t.orderItems + [ItemOf(orderId, line)]
      && t1.stock.Keys == t.stock.Keys
      && (IsPreorder(t, line.productId) ==>
            && t1.stock == t.stock && t1.stockLogs == t.stockLogs
            && t1.preorders == t.preorders[t.nextPreorderId := PreorderOf(t, userId, line, today)])
      && t1.stockLogs == t.stockLogs + OutLog(t, orderId, line)
      && (!IsPreorder(t, line.productId) ==>
            && t1.preorders == t.preorders
            && forall k :: k in t.stock ==>
                 t1.stock[k] == t.stock[k] - (if SkuOf(line.productId, line.variationId) == k then line.quantity else 0))
      && (StockNonNegative(t) ==> StockNonNegative(t1))
  {
    var ti := t.(orderItems := t.orderItems + [ItemOf(orderId, line)]);
    if !IsPreorder(ti, line.productId) {
      StockMovedEffect(ti, line.productId, line.variationId, -line.quantity, OrderOut(orderId));
      if StockNonNegative(t) {
        StockMovedKeepsNonNegative(ti, line.productId, line.variationId, -line.quantity, OrderOut(orderId));
      }
    }
  }

  /**
   * The insert loop: the order items are the lines in order with their unit
   * prices; every stocked SKU drops by its demand and every stocked line logs
   * one `out` entry, in line order; stock stays non-negative; nothing outside
   * items, preorders, stock and logs changes.
   */
  lemma LinesPlacedEffect(t: Tables, c: Tables, orderId: int, userId: int, lines: seq<CartLine>, today: int)
    requires t.products == c.products
    requires LinesPlaced(t, orderId, userId, lines, today).Some?
    ensures var t2 := LinesPlaced(t, orderId, userId, lines, today).value;
      && LoopFrame(t2, t)
      && t2.orderItems == t.orderItems + ItemsFor(orderId, lines)
      && t2.stock.Keys == t.stock.Keys
      && (forall k :: k in t.stock ==> t2.stock[k] == t.stock[k] - Demand(c, lines, k))
      && t2.stockLogs == t.stockLogs + OutLogs(c, orderId, lines)
      && (StockNonNegative(t) ==> StockNonNegative(t2))
  {
    LinesPlacedFrame(t, orderId, userId, lines, today);
    LinesPlacedItems(t, orderId, userId, lines, today);
    LinesPlacedStock(t, c, orderId, userId, lines, today);
    LinesPlacedLogs(t, c, orderId, userId, lines, today);
  }

  /** The loop's first line, then the rest from the state it leaves. */
  lemma LinesPlacedStep(t: Tables, orderId: int, userId: int, lines: seq<CartLine>, today: int)
    requires |lines| > 0 && LinesPlaced(t, orderId, userId, lines, today).Some?
    ensures LinePlaced(t, orderId, userId, lines[0], today).Some?
    ensures LinesPlaced(t, orderId, userId, lines, today)
         == LinesPlaced(LinePlaced(t, orderId, userId, lines[0], today).value, orderId, userId, lines[1..], today)
  {
  }

  /** The loop run forward: once the first line is placed, the rest runs from the state it leaves. */
  lemma LinesPlacedCons(t: Tables, orderId: int, userId: int, lines: seq<CartLine>, today: int)
    requires |lines| > 0 && LinePlaced(t, orderId, userId, lines[0], today).Some?
    ensures LinesPlaced(t, orderId, userId, lines, today)
         == LinesPlaced(LinePlaced(t, orderId, userId, lines[0], today).value, orderId, userId, lines[1..], today)
  {
  }

  lemma {:induction false} LinesPlacedFrame(t: Tables, orderId: int, userId: int, lines: seq<CartLine>, today: int)
    requires LinesPlaced(t, orderId, userId, lines, today).Some?
    ensures var t2 := LinesPlaced(t, orderId, userId, lines, today).value;
      && LoopFrame(t2, t) && t2.stock.Keys == t.stock.Keys
      && (StockNonNegative(t) ==> StockNonNegative(t2))
    decreases |lines|
  {
    if |lines| > 0 {
      LinesPlacedStep(t, orderId, userId, lines, today);
      LinePlacedEffect(t, orderId, userId, lines[0], today);
      LinesPlacedFrame(LinePlaced(t, orderId, userId, lines[0], today).value, orderId, userId, lines[1..], today);
    }
  }

  lemma {:induction false} LinesPlacedItems(t: Tables, orderId: int, userId: int, lines: seq<CartLine>, today: int)
    requires LinesPlaced(t, orderId, userId, lines, today).Some?
    ensures LinesPlaced(t, orderId, userId, lines, today).value.orderItems == t.orderItems + ItemsFor(orderId, lines)
    decreases |lines|
  {
    if |lines| > 0 {
      var t1 := LinePlaced(t, orderId, userId, lines[0], today).value;
      LinesPlacedStep(t, orderId, userId, lines, today);
      LinePlacedEffect(t, orderId, userId, lines[0], today);
      LinesPlacedItems(t1, orderId, userId, lines[1..], today);
      ItemsForStep(orderId, lines);
      AppendStep(t.orderItems, ItemOf(orderId, lines[0]), ItemsFor(orderId, lines[1..]), t1.orderItems,
                 LinesPlaced(t1, orderId, userId, lines[1..], today).value.orderItems);
    }
  }

  lemma ItemsForStep(orderId: int, lines: seq<CartLine>)
    requires |lines| > 0
    ensures ItemsFor(orderId, lines) == [ItemOf(orderId, lines[0])] + ItemsFor(orderId, lines[1..])
  {
  }

  lemma AppendStep(a: seq<OrderItem>, x: OrderItem, r: seq<OrderItem>, b: seq<OrderItem>, c: seq<OrderItem>)
    requires b == a + [x] && c == b + r
    ensures c == a + ([x] + r)
  {
  }

  lemma LogsStep(a: seq<StockLog>, x: seq<StockLog>, r: seq<StockLog>, b: seq<StockLog>, c: seq<StockLog>)
    requires b == a + x && c == b + r
    ensures c == a + (x + r)
  {
  }

  lemma OutLogsStep(c: Tables, orderId: int, lines: seq<CartLine>)
    requires |lines| > 0
    ensures OutLogs(c, orderId, lines) == OutLog(c, orderId, lines[0]) + OutLogs(c, orderId, lines[1..])
  {
  }

  lemma {:induction false} LinesPlacedLogs(t: Tables, c: Tables, orderId: int, userId: int, lines: seq<CartLine>, today: int)
    requires t.products == c.products
    requires LinesPlaced(t, orderId, userId, lines, today).Some?
    ensures LinesPlaced(t, orderId, userId, lines, today).value.stockLogs == t.stockLogs + OutLogs(c, orderId, lines)
    decreases |lines|
  {
    if |lines| > 0 {
      var t1 := LinePlaced(t, orderId, userId, lines[0], today).value;
      LinesPlacedStep(t, orderId, userId, lines, today);
      LinePlacedEffect(t, orderId, userId, lines[0], today);
      assert OutLog(t, orderId, lines[0]) == OutLog(c, orderId, lines[0]);
      LinesPlacedLogs(t1, c, orderId, userId, lines[1..], today);
      OutLogsStep(c, orderId, lines);
      LogsStep(t.stockLogs, OutLog(c, orderId, lines[0]), OutLogs(c, orderId, lines[1..]), t1.stockLogs,
               LinesPlaced(t1, orderId, userId, lines[1..], today).value.stockLogs);
    }
  }

  lemma {:induction false} LinesPlacedStock(t: Tables, c: Tables, orderId: int, userId: int, lines: seq<CartLine>, today: int)
    requires t.products == c.products
    requires LinesPlaced(t, orderId, userId, lines, today).Some?
    ensures var t2 := LinesPlaced(t, orderId, userId, lines, today).value;
      t2.stock.Keys == t.stock.Keys && forall k :: k in t.stock ==> t2.stock[k] == t.stock[k] - Demand(c, lines, k)
    decreases |lines|
  {
    if |lines| > 0 {
      var t1 := LinePlaced(t, orderId, userId, lines[0], today).value;
      LinesPlacedStep(t, orderId, userId, lines, today);
      LinePlacedEffect(t, orderId, userId, lines[0], today);
      LinesPlacedStock(t1, c, orderId, userId, lines[1..], today);
    }
  }

  /** The order row of a placed order carries the cart total, the form fields and the column default status. */
  lemma PlacedOrderRow(t: Tables, userId: int, address: string, payment: string, today: int)
    requires Creating(t, userId, address, payment, today).Placed?
    ensures var p := Creating(t, userId, address, payment, today);
      && p.orderId == t.nextOrderId
      && p.orderId in p.data.orders
      && p.data.orders[p.orderId] == OrderRow(userId, Sum(Items(t, userId)), address, payment, t.orderStatusDefault)
      && (forall k :: k in t.orders && k != p.orderId ==> k in p.data.orders && p.data.orders[k] == t.orders[k])
      && p.data.orderItems == t.orderItems + ItemsFor(p.orderId, Items(t, userId))
      && p.data.cart == t.cart
  {
    var lines := Items(t, userId);
    var t1 := OrderInserted(t, userId, Sum(lines), address, payment);
    LinesPlacedEffect(t1, t1, t.nextOrderId, userId, lines, today);
  }

  /**
   * Each stocked line lowers its SKU by its quantity and each made-to-order line
   * leaves stock alone, so a placed order changes every stock column by minus
   * its demand, logs one `out` entry per stocked line and keeps stock non-negative.
   */
  lemma PlacedStock(t: Tables, userId: int, address: string, payment: string, today: int)
    requires Creating(t, userId, address, payment, today).Placed?
    ensures var p := Creating(t, userId, address, payment, today);
      && p.data.stock.Keys == t.stock.Keys
      && (forall k :: k in t.stock ==> p.data.stock[k] == t.stock[k] - Demand(t, Items(t, userId), k))
      && p.data.stockLogs == t.stockLogs + OutLogs(t, p.orderId, Items(t, userId))
      && (StockNonNegative(t) ==> StockNonNegative(p.data))
  {
    var lines := Items(t, userId);
    var t1 := OrderInserted(t, userId, Sum(lines), address, payment);
    LinesPlacedEffect(t1, t, t.nextOrderId, userId, lines, today);
  }

  /** A cart of made-to-order lines only demands no stock. */
  lemma {:induction false} PreorderLinesDemandNothing(c: Tables, lines: seq<CartLine>, k: Sku)
    requires forall i :: 0 <= i < |lines| ==> IsPreorder(c, lines[i].productId)
    ensures Demand(c, lines, k) == 0
    decreases |lines|
  {
    if |lines| > 0 {
      PreorderLinesDemandNothing(c, lines[1..], k);
    }
  }

  /** A catalogue with one stocked product (id 1, stock 1) and two cart rows of user 7 for it: variation NULL and 0. */
  function TwoRowsOneSku(): Tables {
    Tables(map[1 := Product("box", 100, None, None, 0, None)], map[], map[ProductSku(1) := 1], [],
           map[], [], map[], [CartRow(1, 7, 1, 1, None), CartRow(2, 7, 1, 1, Some(0))],
           [], [], [], 2, 1, 1, 3, 1, 1, "pending")
  }

  /**
   * Two lines on one SKU each pass the pre-flight check, which compares each
   * line with the stock on its own; the second decrement then fails and the
   * whole order is rolled back.
   */
  lemma SameSkuTwiceFails(address: string, payment: string, today: int)
    ensures Creating(TwoRowsOneSku(), 7, address, payment, today) == LineFailed
  {
    var t := TwoRowsOneSku();
    TwoRowsLines();
    TwoRowsPass();
    TwoRowsSecondFails(OrderInserted(t, 7, Sum(Items(t, 7)), address, payment), today);
    CreatingInserts(t, 7, address, payment, today);
  }

  /** The cart of user 7 in the example: both rows, in table order. */
  lemma TwoRowsLines()
    ensures Items(TwoRowsOneSku(), 7) == [CartLine(1, 1, 1, None, Some(100), None), CartLine(2, 1, 1, Some(0), Some(100), None)]
  {
    var t := TwoRowsOneSku();
    assert UserRows(t.cart, 7) == t.cart by {
      assert t.cart[1..][1..] == [];
    }
  }

  /** Each line asks for one unit of the one unit in stock, so the pre-flight check passes. */
  lemma TwoRowsPass()
    requires Items(TwoRowsOneSku(), 7) == [CartLine(1, 1, 1, None, Some(100), None), CartLine(2, 1, 1, Some(0), Some(100), None)]
    ensures PreflightOk(TwoRowsOneSku(), Items(TwoRowsOneSku(), 7)) && |Items(TwoRowsOneSku(), 7)| > 0
  {
  }

  /** Whatever the order row, the first line takes the last unit and the second decrement fails. */
  lemma TwoRowsSecondFails(t1: Tables, today: int)
    requires Items(TwoRowsOneSku(), 7) == [CartLine(1, 1, 1, None, Some(100), None), CartLine(2, 1, 1, Some(0), Some(100), None)]
    requires t1.products == TwoRowsOneSku().products && t1.variations == TwoRowsOneSku().variations
    requires t1.stock == TwoRowsOneSku().stock && t1.nextOrderId == 2
    ensures LinesPlaced(t1, 1, 7, Items(TwoRowsOneSku(), 7), today).None?
  {
    var lines := Items(TwoRowsOneSku(), 7);
    var a := LinePlaced(t1, 1, 7, lines[0], today);
    assert a.Some? && a.value.stock[ProductSku(1)] == 0;
    assert LinePlaced(a.value, 1, 7, lines[1], today).None?;
    assert lines[1..][1..] == [];
  }

  // ---------------------------------------------------------------------------
  // Properties of restoreStockOnCancel()

  /** The tables the restore loop never writes. */
  predicate RestoreFrame(a: Tables, b: Tables) {
    && a.products == b.products && a.variations == b.variations && a.orders == b.orders
    && a.orderItems == b.orderItems && a.cart == b.cart && a.payments == b.payments
    && a.wishlist == b.wishlist && a.reviews == b.reviews
  }

  /** Whatever happens to its items, the restore writes only stock, logs, preorders and the order's status. */
  lemma {:induction false} ItemsRestoredFrame(t: Tables, orderId: int, userId: Option<int>, items: seq<OrderItem>)
    ensures RestoreFrame(ItemsRestored(t, orderId, userId, items).data, t)
    decreases |items|
  {
    if |items| > 0 && ItemRestored(t, orderId, userId, items[0]).Some? {
      ItemRestoredFrame(t, orderId, userId, items[0]);
      ItemsRestoredStep(t, orderId, userId, items);
      ItemsRestoredFrame(ItemRestored(t, orderId, userId, items[0]).value, orderId, userId, items[1..]);
    }
  }

  lemma ItemRestoredFrame(t: Tables, orderId: int, userId: Option<int>, item: OrderItem)
    requires ItemRestored(t, orderId, userId, item).Some?
    ensures RestoreFrame(ItemRestored(t, orderId, userId, item).value, t)
  {
    if !IsPreorder(t, item.productId) {
      StockMovedEffect(t, item.productId, item.variationId, item.quantity, CancelReturn(orderId));
    }
  }

  /** The restore leaves the cart, the catalogue, the order items and the payments alone. */
  lemma RestoreKeepsCart(t: Tables, orderId: int, userId: Option<int>)
    ensures var r := Restored(t, orderId, userId).data;
      && r.cart == t.cart && r.products == t.products && r.orderItems == t.orderItems && r.payments == t.payments
      && r.orders.Keys == t.orders.Keys
  {
    ItemsRestoredFrame(t, orderId, userId, ItemsOf(t.orderItems, orderId));
  }

  predicate QuantitiesNonNegative(items: seq<OrderItem>) {
    forall i :: 0 <= i < |items| ==> items[i].quantity >= 0
  }

  /**
   * With non-negative quantities and stock the restore loop cannot fail: every
   * stocked SKU rises by what its items return, every stocked item logs one `in`
   * entry, in item order, and only stock, stock logs and preorders change.
   */
  lemma {:induction false} ItemsRestoredEffect(t: Tables, c: Tables, orderId: int, userId: Option<int>, items: seq<OrderItem>)
    requires t.products == c.products
    requires StockNonNegative(t) && QuantitiesNonNegative(items)
    ensures var r := ItemsRestored(t, orderId, userId, items);
      && r.ok
      && RestoreFrame(r.data, t)
      && r.data.stock.Keys == t.stock.Keys
      && (forall k :: k in t.stock ==> r.data.stock[k] == t.stock[k] + Returned(c, items, k))
      && r.data.stockLogs == t.stockLogs + InLogs(c, orderId, items)
      && StockNonNegative(r.data)
    decreases |items|
  {
    ItemsRestoredLogs(t, c, orderId, userId, items);
    if |items| > 0 {
      ItemRestoredEffect(t, c, orderId, userId, items[0]);
      QuantitiesTail(items);
      ItemsRestoredStep(t, orderId, userId, items);
      ItemsRestoredEffect(ItemRestored(t, orderId, userId, items[0]).value, c, orderId, userId, items[1..]);
    }
  }

  /** One item of the restore loop, with non-negative quantity and stock, succeeds, returns its units and logs them as one `in` entry. */
  lemma ItemRestoredEffect(t: Tables, c: Tables, orderId: int, userId: Option<int>, item: OrderItem)
    requires t.products == c.products
    requires StockNonNegative(t) && item.quantity >= 0
    ensures ItemRestored(t, orderId, userId, item).Some?
    ensures var t1 := ItemRestored(t, orderId, userId, item).value;
      && RestoreFrame(t1, t)
      && t1.stock.Keys == t.stock.Keys
      && (forall k :: k in t.stock ==>
            t1.stock[k] == t.stock[k] + (if !IsPreorder(c, item.productId) && SkuOf(item.productId, item.variationId) == k then item.quantity else 0))
      && t1.stockLogs == t.stockLogs + InLog(c, orderId, item)
      && StockNonNegative(t1)
  {
    if !IsPreorder(t, item.productId) {
      StockMovedRefusesNegative(t, item.productId, item.variationId, item.quantity, CancelReturn(orderId));
      StockMovedEffect(t, item.productId, item.variationId, item.quantity, CancelReturn(orderId));
      StockMovedKeepsNonNegative(t, item.productId, item.variationId, item.quantity, CancelReturn(orderId));
    }
  }

  lemma InLogsStep(c: Tables, orderId: int, items: seq<OrderItem>)
    requires |items| > 0
    ensures InLogs(c, orderId, items) == InLog(c, orderId, items[0]) + InLogs(c, orderId, items[1..])
  {
  }

  lemma {:induction false} ItemsRestoredLogs(t: Tables, c: Tables, orderId: int, userId: Option<int>, items: seq<OrderItem>)
    requires t.products == c.products
    requires StockNonNegative(t) && QuantitiesNonNegative(items)
    ensures ItemsRestored(t, orderId, userId, items).data.stockLogs == t.stockLogs + InLogs(c, orderId, items)
    decreases |items|
  {
    if |items| > 0 {
      ItemRestoredEffect(t, c, orderId, userId, items[0]);
      var t1 := ItemRestored(t, orderId, userId, items[0]).value;
      QuantitiesTail(items);
      ItemsRestoredStep(t, orderId, userId, items);
      ItemsRestoredLogs(t1, c, orderId, userId, items[1..]);
      InLogsStep(c, orderId, items);
      LogsStep(t.stockLogs, InLog(c, orderId, items[0]), InLogs(c, orderId, items[1..]), t1.stockLogs,
               ItemsRestored(t1, orderId, userId, items[1..]).data.stockLogs);
    }
  }

  /** Whether one restore item cancels a preorder row: a made-to-order item of the row's product, restored for the row's user. */
  predicate ItemCancels(c: Tables, item: OrderItem, userId: Option<int>, row: PreorderRow) {
    userId.Some? && row.userId == userId.value && IsPreorder(c, item.productId) && item.productId == row.productId
  }

  /** Whether some item of the restore cancels the row. */
  predicate CancelsPreorder(c: Tables, items: seq<OrderItem>, userId: Option<int>, row: PreorderRow)
    decreases |items|
  {
    |items| > 0 && (ItemCancels(c, items[0], userId, row) || CancelsPreorder(c, items[1..], userId, row))
  }

  /** CancelsPreorder holds exactly when one of the items cancels the row. */
  lemma {:induction false} CancelsPreorderIff(c: Tables, items: seq<OrderItem>, userId: Option<int>, row: PreorderRow)
    ensures CancelsPreorder(c, items, userId, row) <==> exists i :: 0 <= i < |items| && ItemCancels(c, items[i], userId, row)
    decreases |items|
  {
    if |items| > 0 {
      CancelsPreorderIff(c, items[1..], userId, row);
      if CancelsPreorder(c, items[1..], userId, row) {
        var i :| 0 <= i < |items[1..]| && ItemCancels(c, items[1..][i], userId, row);
        assert items[1..][i] == items[i + 1];
      }
      if exists i :: 0 <= i < |items| && ItemCancels(c, items[i], userId, row) {
        var i :| 0 <= i < |items| && ItemCancels(c, items[i], userId, row);
        if i > 0 {
          assert items[1..][i - 1] == items[i];
        }
      }
    }
  }

  /** A preorder row after the restore of the items: cancelled when some item cancels it, unchanged otherwise. */
  function PreorderAfter(c: Tables, items: seq<OrderItem>, userId: Option<int>, row: PreorderRow): PreorderRow {
    if CancelsPreorder(c, items, userId, row) then row.(status := "cancelled") else row
  }

  /** Which items cancel a row does not depend on its status. */
  lemma {:induction false} CancelsIgnoresStatus(c: Tables, items: seq<OrderItem>, userId: Option<int>, row: PreorderRow, status: string)
    ensures CancelsPreorder(c, items, userId, row.(status := status)) == CancelsPreorder(c, items, userId, row)
    decreases |items|
  {
    if |items| > 0 {
      CancelsIgnoresStatus(c, items[1..], userId, row, status);
    }
  }

  lemma PreorderAfterStep(c: Tables, items: seq<OrderItem>, userId: Option<int>, row: PreorderRow, row1: PreorderRow)
    requires |items| > 0
    requires row1 == if ItemCancels(c, items[0], userId, row) then row.(status := "cancelled") else row
    ensures PreorderAfter(c, items[1..], userId, row1) == PreorderAfter(c, items, userId, row)
  {
    CancelsIgnoresStatus(c, items[1..], userId, row, "cancelled");
  }

  /** One item of the restore cancels, among the preorders, exactly the rows it cancels. */
  lemma ItemRestoredPreorders(t: Tables, c: Tables, orderId: int, userId: Option<int>, item: OrderItem)
    requires t.products == c.products
    requires ItemRestored(t, orderId, userId, item).Some?
    ensures var t1 := ItemRestored(t, orderId, userId, item).value;
      && t1.preorders.Keys == t.preorders.Keys
      && forall k :: k in t.preorders ==>
           t1.preorders[k] == if ItemCancels(c, item, userId, t.preorders[k]) then t.preorders[k].(status := "cancelled") else t.preorders[k]
  {
    if !IsPreorder(t, item.productId) {
      StockMovedEffect(t, item.productId, item.variationId, item.quantity, CancelReturn(orderId));
    }
  }

  /**
   * The restore loop, over its items, cancels every preorder row that some
   * made-to-order item cancels and leaves every other row as it was.
   */
  lemma {:induction false} ItemsRestoredPreorders(t: Tables, c: Tables, orderId: int, userId: Option<int>, items: seq<OrderItem>)
    requires t.products == c.products
    requires StockNonNegative(t) && QuantitiesNonNegative(items)
    ensures var r := ItemsRestored(t, orderId, userId, items).data;
      && r.preorders.Keys == t.preorders.Keys
      && forall k :: k in t.preorders ==> r.preorders[k] == PreorderAfter(c, items, userId, t.preorders[k])
    decreases |items|
  {
    if |items| > 0 {
      ItemRestoredEffect(t, c, orderId, userId, items[0]);
      var t1 := ItemRestored(t, orderId, userId, items[0]).value;
      ItemRestoredPreorders(t, c, orderId, userId, items[0]);
      QuantitiesTail(items);
      ItemsRestoredStep(t, orderId, userId, items);
      ItemsRestoredPreorders(t1, c, orderId, userId, items[1..]);
      forall k | k in t.preorders
        ensures ItemsRestored(t, orderId, userId, items).data.preorders[k] == PreorderAfter(c, items, userId, t.preorders[k])
      {
        PreorderAfterStep(c, items, userId, t.preorders[k], t1.preorders[k]);
      }
    } else {
      forall k | k in t.preorders ensures PreorderAfter(c, items, userId, t.preorders[k]) == t.preorders[k] {
      }
    }
  }

  /**
   * restoreStockOnCancel, as a whole: with non-negative stock and quantities it
   * succeeds; every live preorder of the user for a made-to-order product of the
   * order is cancelled, whichever order it came from, and every other preorder
   * is left as it was.
   */
  lemma RestoredPreorders(t: Tables, orderId: int, userId: Option<int>)
    requires StockNonNegative(t) && QuantitiesNonNegative(ItemsOf(t.orderItems, orderId))
    ensures var r := Restored(t, orderId, userId);
      && r.ok
      && r.data.preorders.Keys == t.preorders.Keys
      && forall k :: k in t.preorders ==> r.data.preorders[k] == PreorderAfter(t, ItemsOf(t.orderItems, orderId), userId, t.preorders[k])
  {
    var items := ItemsOf(t.orderItems, orderId);
    ItemsRestoredEffect(t, t, orderId, userId, items);
    ItemsRestoredPreorders(t, t, orderId, userId, items);
    OrderStatusSetEffect(ItemsRestored(t, orderId, userId, items).data, orderId, "cancelled");
  }

  /** The restore loop's first item, then the rest from the state it leaves. */
  lemma ItemsRestoredStep(t: Tables, orderId: int, userId: Option<int>, items: seq<OrderItem>)
    requires |items| > 0 && ItemRestored(t, orderId, userId, items[0]).Some?
    ensures ItemsRestored(t, orderId, userId, items)
         == ItemsRestored(ItemRestored(t, orderId, userId, items[0]).value, orderId, userId, items[1..])
  {
  }

  lemma QuantitiesTail(items: seq<OrderItem>)
    requires |items| > 0 && QuantitiesNonNegative(items)
    ensures items[0].quantity >= 0 && QuantitiesNonNegative(items[1..])
  {
    forall i | 0 <= i < |items[1..]| ensures items[1..][i].quantity >= 0 {
      assert items[1..][i] == items[i + 1];
    }
  }

  /** The items of an order and the lines they were made from give back exactly what the lines took. */
  lemma {:induction false} DemandIsReturned(c: Tables, orderId: int, lines: seq<CartLine>, k: Sku)
    ensures Returned(c, ItemsFor(orderId, lines), k) == Demand(c, lines, k)
    decreases |lines|
  {
    if |lines| > 0 {
      DemandIsReturned(c, orderId, lines[1..], k);
      assert ItemsFor(orderId, lines)[1..] == ItemsFor(orderId, lines[1..]);
    }
  }

  lemma {:induction false} ItemsOfConcat(a: seq<OrderItem>, b: seq<OrderItem>, orderId: int)
    ensures ItemsOf(a + b, orderId) == ItemsOf(a, orderId) + ItemsOf(b, orderId)
    decreases |a|
  {
    if |a| > 0 {
      assert (a + b)[1..] == a[1..] + b;
      ItemsOfConcat(a[1..], b, orderId);
    } else {
      assert a + b == b;
    }
  }

  lemma {:induction false} ItemsOfOwn(orderId: int, lines: seq<CartLine>)
    ensures ItemsOf(ItemsFor(orderId, lines), orderId) == ItemsFor(orderId, lines)
    decreases |lines|
  {
    if |lines| > 0 {
      ItemsOfOwn(orderId, lines[1..]);
      assert ItemsFor(orderId, lines)[1..] == ItemsFor(orderId, lines[1..]);
    }
  }

  lemma ItemsOfNone(items: seq<OrderItem>, orderId: int)
    requires forall i :: 0 <= i < |items| ==> items[i].orderId != orderId
    ensures ItemsOf(items, orderId) == []
  {
  }

  /** order_items holds no row for an order id not yet issued. */
  predicate FreshOrderId(t: Tables) {
    forall i :: 0 <= i < |t.orderItems| ==> t.orderItems[i].orderId != t.nextOrderId
  }

  predicate LineQuantitiesNonNegative(lines: seq<CartLine>) {
    forall i :: 0 <= i < |lines| ==> lines[i].quantity >= 0
  }

  /** The items stored for a freshly placed order are exactly the items of its lines. */
  lemma PlacedItemsOf(t: Tables, userId: int, address: string, payment: string, today: int)
    requires FreshOrderId(t)
    requires Creating(t, userId, address, payment, today).Placed?
    ensures var p := Creating(t, userId, address, payment, today);
      ItemsOf(p.data.orderItems, p.orderId) == ItemsFor(p.orderId, Items(t, userId))
  {
    var lines := Items(t, userId);
    var id := t.nextOrderId;
    var t1 := OrderInserted(t, userId, Sum(lines), address, payment);
    LinesPlacedEffect(t1, t1, id, userId, lines, today);
    ItemsOfConcat(t1.orderItems, ItemsFor(id, lines), id);
    ItemsOfOwn(id, lines);
    ItemsOfNone(t1.orderItems, id);
  }

  /** The value of a list of order items: unit price times quantity, summed. */
  function ItemsTotal(items: seq<OrderItem>): int {
    if |items| == 0 then 0 else items[0].price * items[0].quantity + ItemsTotal(items[1..])
  }

  /** The items made from the lines are worth what the lines' subtotals add up to. */
  lemma {:induction false} ItemsTotalIsSum(orderId: int, lines: seq<CartLine>)
    ensures ItemsTotal(ItemsFor(orderId, lines)) == Sum(lines)
    decreases |lines|
  {
    if |lines| > 0 {
      ItemsForStep(orderId, lines);
      assert ItemsFor(orderId, lines)[1..] == ItemsFor(orderId, lines[1..]);
      ItemsTotalIsSum(orderId, lines[1..]);
    }
  }

  /**
   * The total_amount stored with a freshly placed order is the value of the
   * order items stored for it: both are computed from the same unit prices.
   */
  lemma PlacedTotalMatchesItems(t: Tables, userId: int, address: string, payment: string, today: int)
    requires FreshOrderId(t)
    requires Creating(t, userId, address, payment, today).Placed?
    ensures var p := Creating(t, userId, address, payment, today);
      && p.orderId in p.data.orders
      && ItemsTotal(ItemsOf(p.data.orderItems, p.orderId)) == p.data.orders[p.orderId].totalAmount
  {
    PlacedOrderRow(t, userId, address, payment, today);
    PlacedItemsOf(t, userId, address, payment, today);
    ItemsTotalIsSum(t.nextOrderId, Items(t, userId));
  }

  /** Restoring the items of a successful insert loop gives every stock column its value before the loop. */
  lemma RestoreUndoesLines(t1: Tables, orderId: int, userId: int, lines: seq<CartLine>, today: int)
    requires StockNonNegative(t1) && LineQuantitiesNonNegative(lines)
    requires LinesPlaced(t1, orderId, userId, lines, today).Some?
    ensures var t2 := LinesPlaced(t1, orderId, userId, lines, today).value;
      var r := ItemsRestored(t2, orderId, Some(userId), ItemsFor(orderId, lines));
      r.ok && r.data.stock == t1.stock && r.data.orders == t1.orders
  {
    var t2 := LinesPlaced(t1, orderId, userId, lines, today).value;
    LinesPlacedEffect(t1, t1, orderId, userId, lines, today);
    var items := ItemsFor(orderId, lines);
    assert QuantitiesNonNegative(items);
    ItemsRestoredEffect(t2, t1, orderId, Some(userId), items);
    var r := ItemsRestored(t2, orderId, Some(userId), items);
    forall k | k in t1.stock ensures r.data.stock[k] == t1.stock[k] {
      DemandIsReturned(t1, orderId, lines, k);
    }
  }

  /**
   * The stock log of a freshly placed and then cancelled order: placing it logs
   * one `out` entry per stocked line, and the cancel appends, in the same
   * order, an `in` entry giving back each of those deltas.
   */
  lemma CancelLogs(t: Tables, userId: int, address: string, payment: string, today: int)
    requires StockNonNegative(t) && FreshOrderId(t)
    requires LineQuantitiesNonNegative(Items(t, userId))
    requires Creating(t, userId, address, payment, today).Placed?
    ensures var p := Creating(t, userId, address, payment, today);
      && p.data.stockLogs == t.stockLogs + OutLogs(t, p.orderId, Items(t, userId))
      && Restored(p.data, p.orderId, Some(userId)).data.stockLogs
         == p.data.stockLogs + Undone(OutLogs(t, p.orderId, Items(t, userId)), p.orderId)
  {
    var lines := Items(t, userId);
    var id := t.nextOrderId;
    var t1 := OrderInserted(t, userId, Sum(lines), address, payment);
    var p := Creating(t, userId, address, payment, today);
    PlacedStock(t, userId, address, payment, today);
    LinesPlacedEffect(t1, t, id, userId, lines, today);
    PlacedItemsOf(t, userId, address, payment, today);
    var items := ItemsFor(id, lines);
    assert QuantitiesNonNegative(items);
    ItemsRestoredLogs(p.data, t, id, Some(userId), items);
    InLogsUndoOutLogs(t, id, lines);
    var r := ItemsRestored(p.data, id, Some(userId), items);
    OrderStatusSetEffect(r.data, id, "cancelled");
  }

  /** One line of the insert loop on the preorders: a made-to-order line takes the next preorder id, a stocked one none. */
  lemma LinePlacedPreorder(t: Tables, c: Tables, orderId: int, userId: int, line: CartLine, today: int)
    requires t.products == c.products
    requires LinePlaced(t, orderId, userId, line, today).Some?
    ensures var t1 := LinePlaced(t, orderId, userId, line, today).value;
      && t1.products == t.products
      && (IsPreorder(c, line.productId) ==>
            t1.nextPreorderId == t.nextPreorderId + 1 && t1.preorders == t.preorders[t.nextPreorderId := PreorderOf(t, userId, line, today)])
      && (!IsPreorder(c, line.productId) ==> t1.nextPreorderId == t.nextPreorderId && t1.preorders == t.preorders)
  {
    var ti := t.(orderItems := t.orderItems + [ItemOf(orderId, line)]);
    if !IsPreorder(ti, line.productId) {
      StockMovedEffect(ti, line.productId, line.variationId, -line.quantity, OrderOut(orderId));
    }
  }

  /**
   * The insert loop allocates a block of preorder ids, leaves the rows below it,
   * and every row it allocates belongs to the user and to the product of a
   * made-to-order item of the order.
   */
  lemma {:induction false} LinesPlacedPreorders(t: Tables, c: Tables, orderId: int, userId: int, lines: seq<CartLine>, today: int)
    requires t.products == c.products
    requires LinesPlaced(t, orderId, userId, lines, today).Some?
    ensures var t2 := LinesPlaced(t, orderId, userId, lines, today).value;
      && t.nextPreorderId <= t2.nextPreorderId
      && (forall k :: k in t.preorders && k < t.nextPreorderId ==> k in t2.preorders && t2.preorders[k] == t.preorders[k])
      && forall k :: t.nextPreorderId <= k < t2.nextPreorderId ==>
           k in t2.preorders && CancelsPreorder(c, ItemsFor(orderId, lines), Some(userId), t2.preorders[k])
    decreases |lines|
  {
    if |lines| > 0 {
      var line := lines[0];
      var t1 := LinePlaced(t, orderId, userId, line, today).value;
      LinesPlacedStep(t, orderId, userId, lines, today);
      LinePlacedPreorder(t, c, orderId, userId, line, today);
      LinesPlacedPreorders(t1, c, orderId, userId, lines[1..], today);
      var t2 := LinesPlaced(t, orderId, userId, lines, today).value;
      var items := ItemsFor(orderId, lines);
      ItemsForStep(orderId, lines);
      assert items[0] == ItemOf(orderId, line) && items[1..] == ItemsFor(orderId, lines[1..]);
      forall k | t.nextPreorderId <= k < t2.nextPreorderId
        ensures k in t2.preorders && CancelsPreorder(c, items, Some(userId), t2.preorders[k])
      {
        if k < t1.nextPreorderId {
          assert k == t.nextPreorderId && IsPreorder(c, line.productId);
          assert t2.preorders[k] == PreorderOf(t, userId, line, today);
          assert ItemCancels(c, items[0], Some(userId), t2.preorders[k]);
        }
      }
    }
  }

  /** A restore cancels every preorder row in a block of ids when some item of the order cancels each of them. */
  lemma RestoredCancelsBlock(p: Tables, c: Tables, orderId: int, userId: int, lo: int, hi: int)
    requires p.products == c.products
    requires StockNonNegative(p) && QuantitiesNonNegative(ItemsOf(p.orderItems, orderId))
    requires forall k :: lo <= k < hi ==> k in p.preorders && CancelsPreorder(c, ItemsOf(p.orderItems, orderId), Some(userId), p.preorders[k])
    ensures forall k :: lo <= k < hi ==>
      k in Restored(p, orderId, Some(userId)).data.preorders && Restored(p, orderId, Some(userId)).data.preorders[k].status == "cancelled"
  {
    var items := ItemsOf(p.orderItems, orderId);
    ItemsRestoredEffect(p, c, orderId, Some(userId), items);
    ItemsRestoredPreorders(p, c, orderId, Some(userId), items);
    OrderStatusSetEffect(ItemsRestored(p, orderId, Some(userId), items).data, orderId, "cancelled");
  }

  /** Cancelling a freshly placed order cancels every preorder row its placement created. */
  lemma CancelCancelsPreorders(t: Tables, userId: int, address: string, payment: string, today: int)
    requires StockNonNegative(t) && FreshOrderId(t)
    requires LineQuantitiesNonNegative(Items(t, userId))
    requires Creating(t, userId, address, payment, today).Placed?
    ensures var p := Creating(t, userId, address, payment, today);
      var r := Restored(p.data, p.orderId, Some(userId)).data;
      && t.nextPreorderId <= p.data.nextPreorderId
      && forall k :: t.nextPreorderId <= k < p.data.nextPreorderId ==> k in r.preorders && r.preorders[k].status == "cancelled"
  {
    var lines := Items(t, userId);
    var id := t.nextOrderId;
    var t1 := OrderInserted(t, userId, Sum(lines), address, payment);
    var p := Creating(t, userId, address, payment, today);
    LinesPlacedEffect(t1, t, id, userId, lines, today);
    LinesPlacedPreorders(t1, t, id, userId, lines, today);
    PlacedItemsOf(t, userId, address, payment, today);
    assert QuantitiesNonNegative(ItemsOf(p.data.orderItems, id));
    RestoredCancelsBlock(p.data, t, id, userId, t.nextPreorderId, p.data.nextPreorderId);
  }

  /**
   * Cancelling a freshly placed order undoes its stock effect: the restore
   * succeeds, every stock column is back to its value before the order, the log
   * gains the reversal of the order's `out` entries, every preorder the order
   * created is cancelled, and the order is marked cancelled.
   */
  lemma CancelUndoesPlacement(t: Tables, userId: int, address: string, payment: string, today: int)
    requires StockNonNegative(t) && FreshOrderId(t)
    requires LineQuantitiesNonNegative(Items(t, userId))
    requires Creating(t, userId, address, payment, today).Placed?
    ensures var p := Creating(t, userId, address, payment, today);
      var r := Restored(p.data, p.orderId, Some(userId));
      && r.ok
      && r.data.stock == t.stock
      && r.data.stockLogs == t.stockLogs + OutLogs(t, p.orderId, Items(t, userId)) + Undone(OutLogs(t, p.orderId, Items(t, userId)), p.orderId)
      && (forall k :: t.nextPreorderId <= k < p.data.nextPreorderId ==> k in r.data.preorders && r.data.preorders[k].status == "cancelled")
      && p.orderId in r.data.orders
      && r.data.orders[p.orderId].status == "cancelled"
  {
    var lines := Items(t, userId);
    var id := t.nextOrderId;
    var t1 := OrderInserted(t, userId, Sum(lines), address, payment);
    var p := Creating(t, userId, address, payment, today);
    PlacedItemsOf(t, userId, address, payment, today);
    RestoreUndoesLines(t1, id, userId, lines, today);
    var r := ItemsRestored(p.data, id, Some(userId), ItemsFor(id, lines));
    assert r == ItemsRestored(p.data, id, Some(userId), ItemsOf(p.data.orderItems, id));
    assert id in r.data.orders;
    OrderStatusSetEffect(r.data, id, "cancelled");
    CancelLogs(t, userId, address, payment, today);
    CancelCancelsPreorders(t, userId, address, payment, today);
  }

  /**
   * The restore has no status guard: a second call on the same order succeeds
   * again and gives its stock back a second time.
   */
  lemma RestoreTwiceReturnsTwice(t: Tables, orderId: int, userId: Option<int>)
    requires StockNonNegative(t) && QuantitiesNonNegative(ItemsOf(t.orderItems, orderId))
    ensures var r1 := Restored(t, orderId, userId);
      var r2 := Restored(r1.data, orderId, userId);
      && r1.ok && r2.ok
      && r2.data.stock.Keys == t.stock.Keys
      && (forall k :: k in t.stock ==> r2.data.stock[k] == t.stock[k] + 2 * Returned(t, ItemsOf(t.orderItems, orderId), k))
  {
    var items := ItemsOf(t.orderItems, orderId);
    ItemsRestoredEffect(t, t, orderId, userId, items);
    var a := ItemsRestored(t, orderId, userId, items).data;
    var r1 := OrderStatusSet(a, orderId, "cancelled");
    assert r1.orderItems == t.orderItems && r1.products == t.products && r1.stock == a.stock;
    ItemsRestoredEffect(r1, t, orderId, userId, items);
  }

  /**
   * A made-to-order item cancels every live preorder of that user and product,
   * including those that came from other orders, and no other preorder.
   */
  lemma PreorderCancelScope(t: Tables, orderId: int, userId: int, item: OrderItem, k: int)
    requires IsPreorder(t, item.productId) && k in t.preorders
    ensures var t' := ItemRestored(t, orderId, Some(userId), item).value;
      && k in t'.preorders
      && (t.preorders[k].productId == item.productId && t.preorders[k].userId == userId ==> t'.preorders[k].status == "cancelled")
      && (t.preorders[k].productId != item.productId || t.preorders[k].userId != userId ==> t'.preorders[k] == t.preorders[k])
      && t'.stock == t.stock
  {
  }
}
