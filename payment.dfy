/**
 * The Payment class: each payment method inserts one payments row and then
 * overwrites the order's status. The gateway is a demo that always succeeds;
 * whether the INSERT succeeds is a parameter, and the transaction id is its
 * fixed prefix only (the uniqid suffix is not modelled).
 */
module Payment {
  import opened Schema
  import opened Store
  import OrderWorkflow

  datatype PaymentMethod = CreditCard | BankTransfer | Cod

  /** The payment_method column each method writes. */
  function MethodName(m: PaymentMethod): string {
    match m
    case CreditCard => "credit_card"
    case BankTransfer => "bank_transfer"
    case Cod => "cod"
  }

  /** The payment_status column each method writes. */
  function PaymentStatus(m: PaymentMethod): string {
    match m
    case CreditCard => "completed"
    case BankTransfer => "pending"
    case Cod => "pending"
  }

  function TransactionPrefix(m: PaymentMethod): string {
    match m
    case CreditCard => "DEMO_"
    case BankTransfer => "BT_"
    case Cod => "COD_"
  }

  /** The status the order takes after a recorded payment. */
  function OrderStatusAfter(m: PaymentMethod): string {
    match m
    case CreditCard => "processing"
    case BankTransfer => "pending"
    case Cod => "processing"
  }

  function PaymentRowOf(orderId: int, m: PaymentMethod): PaymentRow {
    PaymentRow(orderId, MethodName(m), PaymentStatus(m), TransactionPrefix(m))
  }

  /** A payment: a failed insert returns false and changes nothing; otherwise the row, then the status overwrite. */
  function Paid(t: Tables, orderId: int, m: PaymentMethod, insertOk: bool): Step {
    if !insertOk then Step(false, t)
    else Step(true, OrderWorkflow.OrderStatusSet(t.(payments := t.payments + [PaymentRowOf(orderId, m)]), orderId, OrderStatusAfter(m)))
  }

  /**
   * What a payment changes: exactly one payments row and the status of that one
   * order; stock, logs, items, preorders and the cart are untouched. A failed
   * insert changes nothing and leaves the order status alone.
   */
  lemma PaidEffect(t: Tables, orderId: int, m: PaymentMethod, insertOk: bool)
    ensures var r := Paid(t, orderId, m, insertOk);
      && (r.ok <==> insertOk)
      && (!r.ok ==> r.data == t)
      && (r.ok ==> r.data.payments == t.payments + [PaymentRow(orderId, MethodName(m), PaymentStatus(m), TransactionPrefix(m))])
      && (r.ok && orderId in t.orders ==> r.data.orders[orderId] == t.orders[orderId].(status := OrderStatusAfter(m)))
      && r.data.orders.Keys == t.orders.Keys
      && (forall k :: k in t.orders && k != orderId ==> r.data.orders[k] == t.orders[k])
      && r.data == t.(payments := r.data.payments, orders := r.data.orders)
  {
    if insertOk {
      var t1 := t.(payments := t.payments + [PaymentRowOf(orderId, m)]);
      OrderWorkflow.OrderStatusSetEffect(t1, orderId, OrderStatusAfter(m));
    }
  }

  /** The method table: credit card completed with DEMO_ then processing; bank transfer pending with BT_ then pending; COD pending with COD_ then processing. */
  lemma MethodTable()
    ensures PaymentRowOf(0, CreditCard).status == "completed" && TransactionPrefix(CreditCard) == "DEMO_" && OrderStatusAfter(CreditCard) == "processing"
    ensures PaymentRowOf(0, BankTransfer).status == "pending" && TransactionPrefix(BankTransfer) == "BT_" && OrderStatusAfter(BankTransfer) == "pending"
    ensures PaymentRowOf(0, Cod).status == "pending" && TransactionPrefix(Cod) == "COD_" && OrderStatusAfter(Cod) == "processing"
  {
  }

  /** The shared body of the three methods: INSERT the payments row; on success UPDATE the order's status. */
  method Record(db: Database, orderId: int, m: PaymentMethod, insertOk: bool) returns (ok: bool)
    modifies db
    ensures Step(ok, db.data) == Paid(old(db.data), orderId, m, insertOk)
    ensures db.savepoint == old(db.savepoint)
  {
    if !insertOk {
      return false;
    }
    db.data := db.data.(payments := db.data.payments + [PaymentRow(orderId, MethodName(m), PaymentStatus(m), TransactionPrefix(m))]);
    var _ := OrderWorkflow.UpdateStatus(db, orderId, OrderStatusAfter(m));
    return true;
  }

  /** processCreditCard: the card details are not inspected; the demo gateway always succeeds. */
  method ProcessCreditCard(db: Database, orderId: int, cardNumber: string, expiry: string, cvv: string, insertOk: bool) returns (ok: bool)
    modifies db
    ensures Step(ok, db.data) == Paid(old(db.data), orderId, CreditCard, insertOk)
    ensures db.savepoint == old(db.savepoint)
  {
    var success := true;
    ok := false;
    if success {
      ok := Record(db, orderId, CreditCard, insertOk);
    }
  }

  method ProcessBankTransfer(db: Database, orderId: int, insertOk: bool) returns (ok: bool)
    modifies db
    ensures Step(ok, db.data) == Paid(old(db.data), orderId, BankTransfer, insertOk)
    ensures db.savepoint == old(db.savepoint)
  {
    ok := Record(db, orderId, BankTransfer, insertOk);
  }

  method ProcessCod(db: Database, orderId: int, insertOk: bool) returns (ok: bool)
    modifies db
    ensures Step(ok, db.data) == Paid(old(db.data), orderId, Cod, insertOk)
    ensures db.savepoint == old(db.savepoint)
  {
    ok := Record(db, orderId, Cod, insertOk);
  }
}
