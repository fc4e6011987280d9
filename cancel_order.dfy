/**
 * The customer's cancel page: ownership and status guards around a bare status
 * overwrite. Unlike the payment-failure path of checkout, it gives no stock back
 * and leaves the order's preorders alone.
 */
module CancelOrder {
  import opened Schema
  import opened Store
  import OrderWorkflow

  /** Where the page sends the customer, with the session message it sets. */
  datatype CancelPage = ToLogin | NoOrderId | NotOwner | OrderCancelled | NotCancellable

  datatype CancelStep = CancelStep(page: CancelPage, data: Tables)

  /** Only these two statuses may be cancelled by the customer. */
  predicate CustomerCancellable(status: string) {
    status == "pending" || status == "processing"
  }

  /**
   * The page for session user `sessionUser` (None when not logged in) and
   * request id `orderId` (None when absent). A missing order has no user id and
   * so fails the ownership test.
   */
  function CancelRequested(t: Tables, sessionUser: Option<int>, orderId: Option<int>): CancelStep {
    if sessionUser.None? then CancelStep(ToLogin, t)
    else if orderId.None? then CancelStep(NoOrderId, t)
    else if orderId.value !in t.orders || t.orders[orderId.value].userId != sessionUser.value then CancelStep(NotOwner, t)
    else if CustomerCancellable(t.orders[orderId.value].status) then
      CancelStep(OrderCancelled, OrderWorkflow.OrderStatusSet(t, orderId.value, "cancelled"))
    else CancelStep(NotCancellable, t)
  }

  method HandleCancel(db: Database, sessionUser: Option<int>, orderId: Option<int>) returns (page: CancelPage)
    modifies db
    ensures CancelStep(page, db.data) == CancelRequested(old(db.data), sessionUser, orderId)
    ensures db.savepoint == old(db.savepoint)
  {
    if sessionUser.None? {
      return ToLogin;
    }
    if orderId.None? {
      return NoOrderId;
    }
    var id := orderId.value;
    var owner: Option<int> := if id in db.data.orders then Some(db.data.orders[id].userId) else None;
    if owner != Some(sessionUser.value) {
      return NotOwner;
    }
    var status := db.data.orders[id].status;
    if status == "pending" || status == "processing" {
      var ok := OrderWorkflow.UpdateStatus(db, id, "cancelled");
      return OrderCancelled;
    }
    return NotCancellable;
  }

  /**
   * The page cancels exactly the session user's own pending or processing
   * orders, and then only the status column changes: stock, stock logs, order
   * items and preorders are as before. In every other case nothing changes.
   */
  lemma CancelOnlyOverwritesStatus(t: Tables, sessionUser: Option<int>, orderId: Option<int>)
    ensures var r := CancelRequested(t, sessionUser, orderId);
      && (r.page == OrderCancelled <==>
            sessionUser.Some? && orderId.Some? && orderId.value in t.orders
            && t.orders[orderId.value].userId == sessionUser.value
            && t.orders[orderId.value].status in {"pending", "processing"})
      && (r.page != OrderCancelled ==> r.data == t)
      && (r.page == OrderCancelled ==>
            && r.data.orders == t.orders[orderId.value := t.orders[orderId.value].(status := "cancelled")]
            && r.data.stock == t.stock && r.data.stockLogs == t.stockLogs
            && r.data.preorders == t.preorders && r.data.orderItems == t.orderItems
            && r.data == t.(orders := r.data.orders))
  {
  }

  /** Another user's order, or an order that does not exist, is never touched. */
  lemma OthersOrdersUntouched(t: Tables, sessionUser: int, orderId: int)
    requires orderId !in t.orders || t.orders[orderId].userId != sessionUser
    ensures CancelRequested(t, Some(sessionUser), Some(orderId)) == CancelStep(NotOwner, t)
  {
  }
}
