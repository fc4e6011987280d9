/**
 * The Preorder class's updates of a preorders row: the status whitelist, the
 * owner- and state-guarded cancel, and the delivery-date overwrite. The delivery
 * date computation itself is `LeadTime.DeliveryDate`.
 */
module PreorderBook {
  import opened Schema
  import opened Store

  /** The six lifecycle values updateStatus accepts. */
  const Lifecycle: set<string> := {"pending", "confirmed", "production", "shipped", "delivered", "cancelled"}

  /**
   * The input check of updateStatus. The id arrives as request text; `None`
   * stands for text that is not numeric.
   */
  predicate StatusAccepted(id: Option<int>, status: string) {
    id.Some? && !EmptyText(status) && status in Lifecycle
  }

  /** The UPDATE of one preorders row's status; an id with no row changes nothing. */
  function WithStatus(t: Tables, id: int, status: string): Tables {
    if id in t.preorders then t.(preorders := t.preorders[id := t.preorders[id].(status := status)]) else t
  }

  /** updateStatus: refused input returns false; accepted input runs the UPDATE, which succeeds. */
  function StatusUpdated(t: Tables, id: Option<int>, status: string): Step {
    if StatusAccepted(id, status) then Step(true, WithStatus(t, id.value, status)) else Step(false, t)
  }

  /** What updateStatus leaves: nothing for refused input, otherwise exactly one status column. */
  lemma StatusUpdatedEffect(t: Tables, id: Option<int>, status: string)
    ensures var r := StatusUpdated(t, id, status);
      && (r.ok <==> id.Some? && status in Lifecycle)
      && (!r.ok ==> r.data == t)
      && r.data.preorders.Keys == t.preorders.Keys
      && (forall k :: k in t.preorders && (!r.ok || Some(k) != id) ==> r.data.preorders[k] == t.preorders[k])
      && (r.ok && id.value in t.preorders ==> r.data.preorders[id.value] == t.preorders[id.value].(status := status))
      && r.data == t.(preorders := r.data.preorders)
  {
  }

  /**
   * There is no transition table: any accepted status replaces any current one,
   * so a delivered or cancelled preorder can be set back to pending.
   */
  lemma NoTransitionTable(t: Tables, id: int, status: string)
    requires id in t.preorders && status in Lifecycle
    ensures StatusUpdated(t, Some(id), status).ok
    ensures StatusUpdated(t, Some(id), status).data.preorders[id].status == status
  {
  }

  /** updateStatus: refuse non-numeric ids, empty statuses and statuses outside the lifecycle. */
  method UpdateStatus(db: Database, id: Option<int>, status: string) returns (ok: bool)
    modifies db
    ensures Step(ok, db.data) == StatusUpdated(old(db.data), id, status)
    ensures db.savepoint == old(db.savepoint)
  {
    if id.None? || EmptyText(status) {
      return false;
    }
    if status !in Lifecycle {
      return false;
    }
    if id.value in db.data.preorders {
      var row := db.data.preorders[id.value];
      db.data := db.data.(preorders := db.data.preorders[id.value := row.(status := status)]);
    }
    return true;
  }

  /** The guard of cancel: the row exists, belongs to the user and is pending or confirmed. */
  predicate Cancellable(t: Tables, id: int, userId: int) {
    id in t.preorders && t.preorders[id].userId == userId
    && (t.preorders[id].status == "pending" || t.preorders[id].status == "confirmed")
  }

  /** cancel: the guarded status change to cancelled. */
  function Cancelled(t: Tables, id: int, userId: int): Step {
    if Cancellable(t, id, userId) then StatusUpdated(t, Some(id), "cancelled") else Step(false, t)
  }

  /**
   * cancel succeeds exactly for the owner of a pending or confirmed preorder; it
   * then sets that row's status to cancelled and changes nothing else, and
   * otherwise changes nothing.
   */
  lemma CancelEffect(t: Tables, id: int, userId: int)
    ensures var r := Cancelled(t, id, userId);
      && (r.ok <==> id in t.preorders && t.preorders[id].userId == userId
                    && t.preorders[id].status in {"pending", "confirmed"})
      && (!r.ok ==> r.data == t)
      && (r.ok ==> r.data == t.(preorders := t.preorders[id := t.preorders[id].(status := "cancelled")]))
  {
  }

  /** A cancelled preorder cannot be cancelled again, and nobody else can cancel it. */
  lemma CancelOnce(t: Tables, id: int, userId: int, other: int)
    requires Cancelled(t, id, userId).ok
    ensures !Cancelled(Cancelled(t, id, userId).data, id, other).ok
    ensures other != userId ==> !Cancelled(t, id, other).ok
  {
  }

  /** cancel: look up the row by id and user, check its status, then update it. */
  method Cancel(db: Database, id: int, userId: int) returns (ok: bool)
    modifies db
    ensures Step(ok, db.data) == Cancelled(old(db.data), id, userId)
    ensures db.savepoint == old(db.savepoint)
  {
    if id in db.data.preorders && db.data.preorders[id].userId == userId {
      var row := db.data.preorders[id];
      if row.status == "pending" || row.status == "confirmed" {
        ok := UpdateStatus(db, Some(id), "cancelled");
        return;
      }
    }
    return false;
  }

  /** updateEstimatedDelivery: overwrite one row's delivery date; the UPDATE succeeds even when no row has that id. */
  function DeliveryUpdated(t: Tables, id: int, date: int): Step {
    Step(true, if id in t.preorders then t.(preorders := t.preorders[id := t.preorders[id].(estimatedDelivery := date)]) else t)
  }

  /** Only the delivery date of that one row changes. */
  lemma DeliveryUpdatedEffect(t: Tables, id: int, date: int)
    ensures var r := DeliveryUpdated(t, id, date);
      && r.ok
      && r.data.preorders.Keys == t.preorders.Keys
      && (forall k :: k in t.preorders && k != id ==> r.data.preorders[k] == t.preorders[k])
      && (id in t.preorders ==> r.data.preorders[id] == t.preorders[id].(estimatedDelivery := date))
      && r.data == t.(preorders := r.data.preorders)
  {
  }

  method UpdateEstimatedDelivery(db: Database, id: int, date: int) returns (ok: bool)
    modifies db
    ensures Step(ok, db.data) == DeliveryUpdated(old(db.data), id, date)
    ensures db.savepoint == old(db.savepoint)
  {
    if id in db.data.preorders {
      var row := db.data.preorders[id];
      db.data := db.data.(preorders := db.data.preorders[id := row.(estimatedDelivery := date)]);
    }
    return true;
  }
}
