/**
 * The cart page: the add, remove and update actions with their stock guards,
 * the displayed total with its shortfall flag, and the checkout-link decision.
 */
module CartPage {
  import opened Schema
  import opened Store
  import opened StockLedger
  import opened CartTable
  import OrderWorkflow

  /** The session message the add action sets. */
  datatype AddOutcome = Added | AddOutOfStock | AddShort

  datatype AddStep = AddStep(outcome: AddOutcome, data: Tables)

  /**
   * The add action. `quantity`, `variationId` and `isPreorder` are the request
   * parameters after intval, None when absent: quantity defaults to 1, the preorder
   * flag to 0. The flag comes from the request, not from the product.
   */
  function AddRequested(t: Tables, userId: int, productId: int, quantity: Option<int>, variationId: Option<int>, isPreorder: Option<int>): AddStep {
    var q := quantity.GetOr(1);
    if isPreorder.GetOr(0) != 0 then AddStep(Added, ItemAdded(t, userId, productId, q, variationId))
    else
      var info := CheckStock(t, productId, variationId);
      if !info.isAvailable then AddStep(AddOutOfStock, t)
      else if info.stock < q then AddStep(AddShort, t)
      else AddStep(Added, ItemAdded(t, userId, productId, q, variationId))
  }

  method AddAction(db: Database, userId: int, productId: int, quantity: Option<int>, variationId: Option<int>, isPreorder: Option<int>)
    returns (outcome: AddOutcome)
    modifies db
    ensures AddStep(outcome, db.data) == AddRequested(old(db.data), userId, productId, quantity, variationId, isPreorder)
    ensures db.savepoint == old(db.savepoint)
  {
    var q := if quantity.Some? then quantity.value else 1;
    var flag := if isPreorder.Some? then isPreorder.value else 0;
    if flag == 0 {
      var info := CheckStock(db.data, productId, variationId);
      if !info.isAvailable {
        return AddOutOfStock;
      } else if info.stock < q {
        return AddShort;
      }
    }
    var _ := AddItem(db, userId, productId, q, variationId);
    return Added;
  }

  /** Without the request flag, an add goes through exactly when the addressed stock is positive and covers the requested quantity. */
  lemma AddGuard(t: Tables, userId: int, productId: int, quantity: Option<int>, variationId: Option<int>, isPreorder: Option<int>)
    ensures var r := AddRequested(t, userId, productId, quantity, variationId, isPreorder);
      && (r.outcome == Added <==>
            isPreorder.GetOr(0) != 0
            || (StockLevel(t, productId, variationId) > 0 && StockLevel(t, productId, variationId) >= quantity.GetOr(1)))
      && (r.outcome == Added ==> r.data == ItemAdded(t, userId, productId, quantity.GetOr(1), variationId))
      && (r.outcome != Added ==> r.data == t)
      && (r.outcome == AddOutOfStock <==> isPreorder.GetOr(0) == 0 && StockLevel(t, productId, variationId) <= 0)
  {
  }

  /** A request carrying the preorder flag is added whatever the stock, for any product. */
  lemma PreorderFlagBypassesStock(t: Tables, userId: int, productId: int, quantity: Option<int>, variationId: Option<int>, flag: int)
    requires flag != 0
    ensures AddRequested(t, userId, productId, quantity, variationId, Some(flag)).outcome == Added
  {
  }

  /**
   * The add check compares only the requested quantity with stock; addItem then
   * merges, so the user's units of that item can end above the stock.
   */
  lemma AddCheckIgnoresCartQuantity(t: Tables, userId: int, productId: int, q: int, variationId: Option<int>)
    requires CartIntegrity(t)
    requires 0 < q <= StockLevel(t, productId, variationId)
    ensures var r := AddRequested(t, userId, productId, Some(q), variationId, None);
      && r.outcome == Added
      && UserQty(r.data.cart, userId, productId, Norm(variationId)) == UserQty(t.cart, userId, productId, Norm(variationId)) + q
      && r.data.stock == t.stock
      && (UserQty(t.cart, userId, productId, Norm(variationId)) > StockLevel(t, productId, variationId) - q ==>
            UserQty(r.data.cart, userId, productId, Norm(variationId)) > StockLevel(r.data, productId, variationId))
  {
    ItemAddedQty(t, userId, productId, q, variationId, userId, productId, Norm(variationId));
  }

  /** The remove action: removeItem by the request id, with no check that the row is the user's. */
  method RemoveAction(db: Database, userId: int, id: int) returns (ok: bool)
    modifies db
    ensures ok && db.data == old(db.data).(cart := RowRemoved(old(db.data).cart, id))
    ensures db.savepoint == old(db.savepoint)
  {
    ok := RemoveItem(db, id);
  }

  /** Any row can be removed through the page, whichever user it belongs to; the other rows stay. */
  lemma RemoveIgnoresOwner(t: Tables, userId: int, row: CartRow)
    requires row in t.cart && row.userId != userId
    ensures row !in RowRemoved(t.cart, row.id)
    ensures forall x :: x in t.cart && x.id != row.id ==> x in RowRemoved(t.cart, row.id)
  {
  }

  // ---------------------------------------------------------------------------
  // The update action

  /** The session message the update action sets; NoSuchRow when the user has no row with that id. */
  datatype UpdateOutcome = Updated | UpdateOutOfStock | UpdateShort | UpdateRefused | NoSuchRow

  datatype UpdateStep = UpdateStep(outcome: UpdateOutcome, data: Tables)

  /** The first of the user's lines with that row id. */
  function LineWithId(lines: seq<CartLine>, id: int): (r: Option<nat>)
    ensures r.Some? ==> r.value < |lines| && lines[r.value].id == id
    ensures r.Some? ==> forall j :: 0 <= j < r.value ==> lines[j].id != id
    ensures r.None? ==> forall j :: 0 <= j < |lines| ==> lines[j].id != id
  {
    if |lines| == 0 then None
    else if lines[0].id == id then Some(0)
    else match LineWithId(lines[1..], id)
      case None => None
      case Some(i) => Some(i + 1)
  }

  /** The guard of one update: made-to-order lines skip the stock test; both paths need a positive quantity. */
  function UpdateLine(t: Tables, line: CartLine, quantity: int): UpdateStep {
    if !IsPreorder(t, line.productId) then
      var info := CheckStock(t, line.productId, line.variationId);
      if !info.isAvailable then UpdateStep(UpdateOutOfStock, t)
      else if info.stock < quantity then UpdateStep(UpdateShort, t)
      else if quantity > 0 then UpdateStep(Updated, QuantitySet(t, line.id, quantity))
      else UpdateStep(UpdateRefused, t)
    else if quantity > 0 then UpdateStep(Updated, QuantitySet(t, line.id, quantity))
    else UpdateStep(UpdateRefused, t)
  }

  /** The update action: find the row among the user's own items, then apply the guard. */
  function UpdateRequested(t: Tables, userId: int, id: int, quantity: int): UpdateStep {
    var lines := Items(t, userId);
    match LineWithId(lines, id)
    case None => UpdateStep(NoSuchRow, t)
    case Some(i) => UpdateLine(t, lines[i], quantity)
  }

  method UpdateAction(db: Database, userId: int, id: int, quantity: int) returns (outcome: UpdateOutcome)
    modifies db
    ensures UpdateStep(outcome, db.data) == UpdateRequested(old(db.data), userId, id, quantity)
    ensures db.savepoint == old(db.savepoint)
  {
    var items := Items(db.data, userId);
    var found := FindLine(items, id);
    if found.None? {
      return NoSuchRow;
    }
    outcome := UpdateItem(db, items[found.value], quantity);
  }

  /** The fetch loop of the update action: the first of the user's lines with that row id. */
  method FindLine(items: seq<CartLine>, id: int) returns (found: Option<nat>)
    ensures found == LineWithId(items, id)
  {
    var i := 0;
    while i < |items|
      invariant 0 <= i <= |items|
      invariant forall j :: 0 <= j < i ==> items[j].id != id
    {
      if items[i].id == id {
        LineWithIdAt(items, id, i);
        return Some(i);
      }
      i := i + 1;
    }
    LineWithIdNone(items, id);
    return None;
  }

  /** The guard and the update of the row the action found. */
  method UpdateItem(db: Database, item: CartLine, quantity: int) returns (outcome: UpdateOutcome)
    modifies db
    ensures UpdateStep(outcome, db.data) == UpdateLine(old(db.data), item, quantity)
    ensures db.savepoint == old(db.savepoint)
  {
    if PreorderFlag(db.data, item.productId) == 0 {
      var info := CheckStock(db.data, item.productId, item.variationId);
      if !info.isAvailable {
        return UpdateOutOfStock;
      } else if info.stock < quantity {
        return UpdateShort;
      }
    }
    if quantity > 0 {
      var _ := UpdateQuantity(db, item.id, quantity);
      return Updated;
    }
    return UpdateRefused;
  }

  lemma LineWithIdAt(lines: seq<CartLine>, id: int, i: nat)
    requires i < |lines| && lines[i].id == id
    requires forall j :: 0 <= j < i ==> lines[j].id != id
    ensures LineWithId(lines, id) == Some(i)
  {
  }

  lemma LineWithIdNone(lines: seq<CartLine>, id: int)
    requires forall j :: 0 <= j < |lines| ==> lines[j].id != id
    ensures LineWithId(lines, id) == None
  {
  }

  /**
   * An update goes through exactly when the user owns a row with that id, the
   * quantity is positive and, for a stocked item, the stock is positive and
   * covers it; then that row's quantity is set, and otherwise nothing changes.
   */
  lemma UpdateGuard(t: Tables, userId: int, id: int, quantity: int)
    ensures var r := UpdateRequested(t, userId, id, quantity);
      var m := LineWithId(Items(t, userId), id);
      && (r.outcome == Updated <==>
            m.Some? && quantity > 0
            && (IsPreorder(t, Items(t, userId)[m.value].productId)
                || StockLevel(t, Items(t, userId)[m.value].productId, Items(t, userId)[m.value].variationId) >= quantity))
      && (r.outcome == Updated ==> r.data == QuantitySet(t, id, quantity))
      && (r.outcome != Updated ==> r.data == t)
      && (r.outcome == NoSuchRow <==> forall x :: x in t.cart && x.userId == userId ==> x.id != id)
  {
    var lines := Items(t, userId);
    var rows := UserRows(t.cart, userId);
    if LineWithId(lines, id).None? {
      forall x | x in t.cart && x.userId == userId ensures x.id != id {
        assert x in rows;
        var j :| 0 <= j < |rows| && rows[j] == x;
        assert lines[j].id == x.id;
      }
    } else {
      var j := LineWithId(lines, id).value;
      assert rows[j] in rows;
    }
  }

  // ---------------------------------------------------------------------------
  // The displayed total and the checkout link

  /** The displayed total: made-to-order lines and stocked lines with enough stock. */
  function DisplayedTotal(t: Tables, lines: seq<CartLine>): int {
    if |lines| == 0 then 0
    else (if OrderWorkflow.LineAvailable(t, lines[0]) then Subtotal(lines[0]) else 0) + DisplayedTotal(t, lines[1..])
  }

  /** One row of the display loop: its subtotal, and whether it counts toward the total. */
  method ShowLine(t: Tables, row: CartLine) returns (counted: bool, subtotal: int)
    ensures counted == OrderWorkflow.LineAvailable(t, row)
    ensures subtotal == Subtotal(row)
  {
    var itemPrice := row.price.GetOr(0);
    if row.priceAdjustment.Some? {
      itemPrice := itemPrice + row.priceAdjustment.value;
    }
    subtotal := itemPrice * row.quantity;
    if PreorderFlag(t, row.productId) == 0 {
      var info := CheckStock(t, row.productId, row.variationId);
      counted := info.isAvailable && info.stock >= row.quantity;
    } else {
      counted := true;
    }
  }

  /** The display loop: the running total and the shortfall flag. */
  method DisplayTotals(t: Tables, userId: int) returns (total: int, hasOutOfStock: bool)
    ensures total == DisplayedTotal(t, Items(t, userId))
    ensures hasOutOfStock <==> !OrderWorkflow.PreflightOk(t, Items(t, userId))
  {
    var items := Items(t, userId);
    total := 0;
    hasOutOfStock := false;
    var i := 0;
    while i < |items|
      invariant 0 <= i <= |items|
      invariant total + DisplayedTotal(t, items[i..]) == DisplayedTotal(t, items)
      invariant hasOutOfStock <==> exists k :: 0 <= k < i && !OrderWorkflow.LineAvailable(t, items[k])
    {
      assert items[i..][1..] == items[i + 1..];
      var counted, subtotal := ShowLine(t, items[i]);
      if counted {
        total := total + subtotal;
      } else {
        hasOutOfStock := true;
      }
      i := i + 1;
    }
  }

  /** Without a shortfall, the displayed total is the order total. */
  lemma {:induction false} DisplayedTotalWithoutShortfall(t: Tables, lines: seq<CartLine>)
    requires OrderWorkflow.PreflightOk(t, lines)
    ensures DisplayedTotal(t, lines) == Sum(lines)
    decreases |lines|
  {
    if |lines| > 0 {
      assert OrderWorkflow.LineAvailable(t, lines[0]);
      assert OrderWorkflow.PreflightOk(t, lines[1..]) by {
        forall k | 0 <= k < |lines[1..]| ensures OrderWorkflow.LineAvailable(t, lines[1..][k]) {
          assert lines[1..][k] == lines[k + 1];
        }
      }
      DisplayedTotalWithoutShortfall(t, lines[1..]);
    }
  }

  /** The block under the cart table. */
  datatype CheckoutLink = ToCheckout | PartialCheckout | ResolveFirst | NoLink

  function LinkShown(rowCount: nat, hasOutOfStock: bool, total: int): CheckoutLink {
    if rowCount > 0 && !hasOutOfStock then ToCheckout
    else if hasOutOfStock && total > 0 then PartialCheckout
    else if hasOutOfStock then ResolveFirst
    else NoLink
  }

  /** The link the page shows for the user's cart. */
  function CartLink(t: Tables, userId: int): CheckoutLink {
    LinkShown(|Items(t, userId)|, !OrderWorkflow.PreflightOk(t, Items(t, userId)), DisplayedTotal(t, Items(t, userId)))
  }

  /**
   * The "order the items in stock" link leads to a checkout whose create()
   * throws: create() checks every line, the short ones included, so no partial
   * order can be placed from the same cart. The plain link leads to a create()
   * that passes its pre-flight check on a non-empty cart.
   */
  lemma PartialCheckoutThrows(t: Tables, userId: int, address: string, payment: string, today: int)
    ensures CartLink(t, userId) == PartialCheckout ==>
      OrderWorkflow.Creating(t, userId, address, payment, today) == OrderWorkflow.ShortStock
    ensures CartLink(t, userId) == ToCheckout ==>
      !OrderWorkflow.Creating(t, userId, address, payment, today).ShortStock?
      && !OrderWorkflow.Creating(t, userId, address, payment, today).EmptyCart?
    ensures CartLink(t, userId) == NoLink <==> Items(t, userId) == []
  {
  }
}
