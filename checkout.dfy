/**
 * The place_order handler of the checkout page and its order summary: roll back
 * any open transaction, create the order, run the chosen payment, then clear
 * the cart on success or restore the stock on failure.
 */
module Checkout {
  import opened Schema
  import opened Store
  import opened CartTable
  import opened OrderWorkflow
  import Payment
  import CartPage
  import opened StockLedger

  /** The payment_method switch; any other text selects no method. */
  function MethodOf(text: string): Option<Payment.PaymentMethod> {
    if text == "credit_card" then Some(Payment.CreditCard)
    else if text == "bank_transfer" then Some(Payment.BankTransfer)
    else if text == "cod" then Some(Payment.Cod)
    else None
  }

  /** What the handler ends with: a redirect to the completion page, or one of its three error messages. */
  datatype Checkout = Completed(orderId: int) | PaymentFailed(orderId: int) | NotPlaced | CreateThrew

  datatype CheckoutStep = CheckoutStep(outcome: Checkout, data: Tables)

  /** The payment switch: no recognised method leaves payment_success false. */
  function PaymentTaken(t: Tables, orderId: int, payment: string, insertOk: bool): Step {
    match MethodOf(payment)
    case None => Step(false, t)
    case Some(m) => Payment.Paid(t, orderId, m, insertOk)
  }

  /** The database the handler starts from: an open transaction is rolled back first. */
  function AfterRollback(data: Tables, savepoint: Option<Tables>): Tables {
    if savepoint.Some? then savepoint.value else data
  }

  /**
   * The handler from the rolled-back state t. A failed restore rolls back its own
   * transaction, so the state after payment stays.
   */
  function CheckedOut(t: Tables, userId: int, address: string, payment: string, today: int, insertOk: bool): CheckoutStep {
    match Creating(t, userId, address, payment, today)
    case ShortStock => CheckoutStep(CreateThrew, t)
    case LineFailed => CheckoutStep(CreateThrew, t)
    case EmptyCart => CheckoutStep(NotPlaced, t)
    case Placed(id, t2) =>
      var paid := PaymentTaken(t2, id, payment, insertOk);
      if paid.ok then CheckoutStep(Completed(id), Cleared(paid.data, userId))
      else
        var r := Restored(paid.data, id, Some(userId));
        CheckoutStep(PaymentFailed(id), if r.ok then r.data else paid.data)
  }

  /** The place_order handler. The card fields are passed through to the demo gateway, which ignores them. */
  method PlaceOrder(db: Database, userId: int, address: string, payment: string,
                    cardNumber: string, cardExpiry: string, cardCvv: string, today: int, insertOk: bool)
    returns (r: Checkout)
    modifies db
    ensures var s := CheckedOut(AfterRollback(old(db.data), old(db.savepoint)), userId, address, payment, today, insertOk);
      r == s.outcome && db.data == s.data && db.savepoint == None
  {
    if db.InTransaction() {
      db.Rollback();
    }
    var created := Create(db, userId, address, payment, today);
    match created
    case Threw =>
      // The catch block rolls back only an open transaction, and create() never
      // leaves one open when it throws, so there is nothing to roll back here.
      assert !db.InTransaction();
      return CreateThrew;
    case NotCreated =>
      return NotPlaced;
    case Created(orderId) =>
      var paid := false;
      if payment == "credit_card" {
        paid := Payment.ProcessCreditCard(db, orderId, cardNumber, cardExpiry, cardCvv, insertOk);
      } else if payment == "bank_transfer" {
        paid := Payment.ProcessBankTransfer(db, orderId, insertOk);
      } else if payment == "cod" {
        paid := Payment.ProcessCod(db, orderId, insertOk);
      }
      if paid {
        var _ := Clear(db, userId);
        return Completed(orderId);
      }
      var _ := RestoreStockOnCancel(db, orderId, Some(userId));
      return PaymentFailed(orderId);
  }

  /** The order summary: the loop over getItems with no stock exclusion. */
  method SummaryTotal(t: Tables, userId: int) returns (total: int)
    ensures total == Sum(Items(t, userId))
  {
    var items := Items(t, userId);
    total := 0;
    var i := 0;
    while i < |items|
      invariant 0 <= i <= |items|
      invariant total + Sum(items[i..]) == Sum(items)
    {
      SumStep(items, i);
      var itemPrice := items[i].price.GetOr(0);
      if items[i].priceAdjustment.Some? {
        itemPrice := itemPrice + items[i].priceAdjustment.value;
      }
      var subtotal := itemPrice * items[i].quantity;
      total := total + subtotal;
      i := i + 1;
    }
  }

  /**
   * The handler's outcomes: an exception or an empty cart leaves the database as
   * it found it; only a completed payment clears the cart, whose other users'
   * rows stay; a failed payment keeps the cart.
   */
  lemma CheckoutOutcomes(t: Tables, userId: int, address: string, payment: string, today: int, insertOk: bool, other: int)
    requires other != userId
    ensures var s := CheckedOut(t, userId, address, payment, today, insertOk);
      && (s.outcome.CreateThrew? <==> Creating(t, userId, address, payment, today).ShortStock? || Creating(t, userId, address, payment, today).LineFailed?)
      && (s.outcome.NotPlaced? <==> Items(t, userId) == [])
      && (s.outcome.CreateThrew? || s.outcome.NotPlaced? ==> s.data == t)
      && (s.outcome.Completed? ==> UserRows(s.data.cart, userId) == [] && UserRows(s.data.cart, other) == UserRows(t.cart, other))
      && (s.outcome.PaymentFailed? ==> s.data.cart == t.cart)
  {
    ShortStockIff(t, userId, address, payment, today);
    var c := Creating(t, userId, address, payment, today);
    if c.Placed? {
      PlacedOrderRow(t, userId, address, payment, today);
      var paid := PaymentTaken(c.data, c.orderId, payment, insertOk);
      if MethodOf(payment).Some? {
        Payment.PaidEffect(c.data, c.orderId, MethodOf(payment).value, insertOk);
      }
      assert paid.data.cart == t.cart;
      if paid.ok {
        RemoveAndClearEffect(paid.data, 0, userId, other);
      } else {
        var r := Restored(paid.data, c.orderId, Some(userId));
        if r.ok {
          OrderWorkflow.RestoreKeepsCart(paid.data, c.orderId, Some(userId));
        }
      }
    }
  }

  /** A payment method outside the three is a payment failure whenever the order was placed. */
  lemma UnknownMethodFails(t: Tables, userId: int, address: string, payment: string, today: int, insertOk: bool)
    requires MethodOf(payment).None?
    requires Creating(t, userId, address, payment, today).Placed?
    ensures CheckedOut(t, userId, address, payment, today, insertOk).outcome.PaymentFailed?
  {
  }

  /**
   * A failed payment on a fresh order gives the stock back and cancels the
   * order, as long as quantities and stock are non-negative.
   */
  lemma PaymentFailureRestoresStock(t: Tables, userId: int, address: string, payment: string, today: int)
    requires StockNonNegative(t) && FreshOrderId(t)
    requires LineQuantitiesNonNegative(Items(t, userId))
    requires Creating(t, userId, address, payment, today).Placed?
    ensures var s := CheckedOut(t, userId, address, payment, today, false);
      var id := Creating(t, userId, address, payment, today).orderId;
      && s.outcome == PaymentFailed(id)
      && s.data.stock == t.stock
      && id in s.data.orders && s.data.orders[id].status == "cancelled"
  {
    CancelUndoesPlacement(t, userId, address, payment, today);
    var c := Creating(t, userId, address, payment, today);
    if MethodOf(payment).Some? {
      Payment.PaidEffect(c.data, c.orderId, MethodOf(payment).value, false);
    }
  }

  // ---------------------------------------------------------------------------
  // A negative quantity defeats the restore

  /** The shop of the example below: one stocked product 1 ("box", price 100) with stock 3, no variations, no order yet. */
  predicate BoxShop(t: Tables) {
    && t.products == map[1 := Product("box", 100, None, None, 0, None)]
    && t.variations == map[]
    && t.stock == map[ProductSku(1) := 3]
    && t.orderItems == []
    && t.nextOrderId == 1
    && t.orderStatusDefault == "pending"
  }

  /** That shop with user 7's cart after the three requests below: -5, 3 and 3 units of product 1, variation 0. */
  predicate NegativeLineCart(t: Tables) {
    BoxShop(t) && t.cart == [CartRow(1, 7, 1, -5, Some(0)), CartRow(2, 7, 1, 3, Some(0)), CartRow(3, 7, 1, 3, Some(0))]
  }

  /**
   * cart.php's add guard only compares the stock with the requested quantity, so a
   * posted quantity of -5 is added; variation 0 is looked up as NULL and stored
   * as 0, so each request makes a row of its own.
   */
  lemma NegativeLineAdds(t: Tables)
    requires BoxShop(t) && t.cart == [] && t.nextCartId == 1
    ensures var a1 := CartPage.AddRequested(t, 7, 1, Some(-5), Some(0), None);
      var a2 := CartPage.AddRequested(a1.data, 7, 1, Some(3), Some(0), None);
      var a3 := CartPage.AddRequested(a2.data, 7, 1, Some(3), Some(0), None);
      && a1.outcome == CartPage.Added && a2.outcome == CartPage.Added && a3.outcome == CartPage.Added
      && NegativeLineCart(a3.data)
  {
    var a1 := CartPage.AddRequested(t, 7, 1, Some(-5), Some(0), None);
    assert a1.data.cart == [CartRow(1, 7, 1, -5, Some(0))];
    var a2 := CartPage.AddRequested(a1.data, 7, 1, Some(3), Some(0), None);
    assert !Matches(a1.data.cart[0], 7, 1, Some(0));
    assert a2.data.cart == [CartRow(1, 7, 1, -5, Some(0)), CartRow(2, 7, 1, 3, Some(0))];
    var a3 := CartPage.AddRequested(a2.data, 7, 1, Some(3), Some(0), None);
    assert !Matches(a2.data.cart[0], 7, 1, Some(0)) && !Matches(a2.data.cart[1], 7, 1, Some(0));
    assert a3.data.cart == [CartRow(1, 7, 1, -5, Some(0)), CartRow(2, 7, 1, 3, Some(0)), CartRow(3, 7, 1, 3, Some(0))];
  }

  /** A cart whose rows all belong to the user is the user's whole cart. */
  lemma {:induction false} OwnRowsAreUserRows(cart: seq<CartRow>, userId: int)
    requires forall i :: 0 <= i < |cart| ==> cart[i].userId == userId
    ensures UserRows(cart, userId) == cart
  {
    if |cart| > 0 {
      OwnRowsAreUserRows(cart[1..], userId);
      assert [cart[0]] + cart[1..] == cart;
    }
  }

  /** The three cart lines of user 7, in table order. */
  lemma NegativeLineLines(t: Tables)
    requires NegativeLineCart(t)
    ensures Items(t, 7) == [CartLine(1, 1, -5, Some(0), Some(100), None),
                            CartLine(2, 1, 3, Some(0), Some(100), None),
                            CartLine(3, 1, 3, Some(0), Some(100), None)]
  {
    OwnRowsAreUserRows(t.cart, 7);
    var lines := LinesOf(t, t.cart);
    assert |lines| == 3;
    assert lines[0] == LineOf(t, t.cart[0]) && lines[1] == LineOf(t, t.cart[1]) && lines[2] == LineOf(t, t.cart[2]);
  }

  /** One stocked line on product 1, inside the loop: the decrement succeeds when the level stays non-negative. */
  lemma NegativeLineStep(t: Tables, line: CartLine, today: int, before: int)
    requires t.products == map[1 := Product("box", 100, None, None, 0, None)] && t.stock == map[ProductSku(1) := before]
    requires line.productId == 1 && line.variationId == Some(0) && before - line.quantity >= 0
    ensures LinePlaced(t, 1, 7, line, today).Some?
    ensures LinePlaced(t, 1, 7, line, today).value.stock == map[ProductSku(1) := before - line.quantity]
    ensures LinePlaced(t, 1, 7, line, today).value.products == t.products
  {
    var ti := t.(orderItems := t.orderItems + [ItemOf(1, line)]);
    assert !IsPreorder(ti, 1);
    StockMovedRefusesNegative(ti, 1, Some(0), -line.quantity, OrderOut(1));
    LinePlacedEffect(t, 1, 7, line, today);
  }

  /** The insert loop over the three lines takes stock 3 to 8, 5 and then 2. */
  lemma NegativeLineLoop(t1: Tables, lines: seq<CartLine>, today: int)
    requires t1.products == map[1 := Product("box", 100, None, None, 0, None)] && t1.stock == map[ProductSku(1) := 3]
    requires lines == [CartLine(1, 1, -5, Some(0), Some(100), None),
                       CartLine(2, 1, 3, Some(0), Some(100), None),
                       CartLine(3, 1, 3, Some(0), Some(100), None)]
    ensures LinesPlaced(t1, 1, 7, lines, today).Some?
    ensures LinesPlaced(t1, 1, 7, lines, today).value.stock == map[ProductSku(1) := 2]
    ensures LinesPlaced(t1, 1, 7, lines, today).value.products == t1.products
  {
    NegativeLineStep(t1, lines[0], today, 3);
    var b1 := LinePlaced(t1, 1, 7, lines[0], today).value;
    NegativeLineStep(b1, lines[1], today, 8);
    var b2 := LinePlaced(b1, 1, 7, lines[1], today).value;
    NegativeLineStep(b2, lines[2], today, 5);
    LinesPlacedCons(t1, 1, 7, lines, today);
    LinesPlacedCons(b1, 1, 7, lines[1..], today);
    LinesPlacedCons(b2, 1, 7, lines[1..][1..], today);
    assert lines[1..][1..][1..] == [];
  }

  /** Every line passes the pre-flight check against stock 3, and the order is placed as order 1, leaving stock 2. */
  lemma NegativeLinePlaced(t: Tables, address: string, payment: string, today: int)
    requires NegativeLineCart(t)
    ensures var c := Creating(t, 7, address, payment, today);
      && c.Placed? && c.orderId == 1
      && c.data.stock == map[ProductSku(1) := 2]
      && c.data.products == t.products
  {
    var lines := Items(t, 7);
    NegativeLineLines(t);
    forall k | 0 <= k < |lines| ensures LineAvailable(t, lines[k]) {
      assert !IsPreorder(t, 1) && CheckStock(t, 1, Some(0)).stock == 3;
    }
    CreatingInserts(t, 7, address, payment, today);
    NegativeLineLoop(OrderInserted(t, 7, Sum(lines), address, payment), lines, today);
  }

  /** The restore gives the -5 item back first: stock 2 would become -3, so it throws before any item is restored. */
  lemma NegativeLineRestoreFails(t2: Tables, items: seq<OrderItem>)
    requires t2.stock == map[ProductSku(1) := 2] && t2.products == map[1 := Product("box", 100, None, None, 0, None)]
    requires |items| > 0 && items[0] == OrderItem(1, 1, -5, 100, Some(0))
    ensures ItemsRestored(t2, 1, Some(7), items) == Step(false, t2)
  {
    assert !IsPreorder(t2, 1);
    StockMovedRefusesNegative(t2, 1, Some(0), -5, CancelReturn(1));
  }

  /** The restore of the placed order: its first item is the -5 line, which would take stock 2 to -3. */
  lemma PlacedRestoreThrows(c: Tables, lines: seq<CartLine>)
    requires c.stock == map[ProductSku(1) := 2] && c.products == map[1 := Product("box", 100, None, None, 0, None)]
    requires lines == [CartLine(1, 1, -5, Some(0), Some(100), None),
                       CartLine(2, 1, 3, Some(0), Some(100), None),
                       CartLine(3, 1, 3, Some(0), Some(100), None)]
    requires ItemsOf(c.orderItems, 1) == ItemsFor(1, lines)
    ensures !Restored(c, 1, Some(7)).ok
  {
    var items := ItemsOf(c.orderItems, 1);
    assert items[0] == ItemOf(1, lines[0]) == OrderItem(1, 1, -5, 100, Some(0));
    NegativeLineRestoreFails(c, items);
  }

  /** create() places order id leaving the given stock and a pending order, and the restore of that order throws. */
  predicate RestoreThrowsAfterPlacing(t: Tables, userId: int, address: string, payment: string, today: int, id: int, stock: map<Sku, int>) {
    var c := Creating(t, userId, address, payment, today);
    && c.Placed? && c.orderId == id && c.data.stock == stock
    && id in c.data.orders && c.data.orders[id].status == "pending"
    && !Restored(c.data, id, Some(userId)).ok
  }

  /**
   * A placed order whose payment method is unknown and whose restore throws:
   * the handler reports the failed payment and ends in the placed state.
   */
  lemma FailedRestoreKeepsPlacement(t: Tables, userId: int, address: string, payment: string, today: int, insertOk: bool,
                                    id: int, stock: map<Sku, int>)
    requires MethodOf(payment).None? && RestoreThrowsAfterPlacing(t, userId, address, payment, today, id, stock)
    ensures var s := CheckedOut(t, userId, address, payment, today, insertOk);
      && Creating(t, userId, address, payment, today).Placed?
      && s.outcome == PaymentFailed(id) && s.data.stock == stock
      && id in s.data.orders && s.data.orders[id].status == "pending"
  {
  }

  /** Placing the cart with the -5 line: order 1 is pending with stock 2, and restoring it throws on its first item. */
  lemma NegativeLineRestoreThrows(t: Tables, address: string, today: int)
    requires NegativeLineCart(t)
    ensures RestoreThrowsAfterPlacing(t, 7, address, "paypal", today, 1, map[ProductSku(1) := 2])
  {
    NegativeLineLines(t);
    NegativeLinePlaced(t, address, "paypal", today);
    PlacedOrderRow(t, 7, address, "paypal", today);
    PlacedItemsOf(t, 7, address, "paypal", today);
    PlacedRestoreThrows(Creating(t, 7, address, "paypal", today).data, Items(t, 7));
  }

  /**
   * Reachable carts with a negative quantity break the failed-payment restore:
   * after the three accepted add requests of NegativeLineAdds the order is
   * placed, its payment fails, the restore throws on the -5 item, and the
   * checkout ends with stock 2 instead of 3 and the order still pending.
   */
  lemma NegativeQuantityDefeatsRestore(t: Tables, address: string, today: int, insertOk: bool)
    requires NegativeLineCart(t)
    ensures t.stock == map[ProductSku(1) := 3]
    ensures var s := CheckedOut(t, 7, address, "paypal", today, insertOk);
      && Creating(t, 7, address, "paypal", today).Placed?
      && s.outcome == PaymentFailed(1) && s.data.stock == map[ProductSku(1) := 2]
      && 1 in s.data.orders && s.data.orders[1].status == "pending"
  {
    NegativeLineRestoreThrows(t, address, today);
    FailedRestoreKeepsPlacement(t, 7, address, "paypal", today, insertOk, 1, map[ProductSku(1) := 2]);
  }
}
