/**
 * The Cart class over the cart table: merge-on-add keyed by (user, product,
 * variation), the quantity overwrite, row and user deletes, the joined item list
 * with its total, and the merge of a guest cart into a user's cart.
 */
module CartTable {
  import opened Schema
  import opened Store

  // ---------------------------------------------------------------------------
  // Lookup

  /**
   * The row lookup of addItem and isInCart: a truthy variation id must be equal,
   * any other variation id is looked up as `variation_id IS NULL`.
   */
  predicate Matches(row: CartRow, userId: int, productId: int, variationId: Option<int>) {
    row.userId == userId && row.productId == productId
    && (if Truthy(variationId) then row.variationId == variationId else row.variationId.None?)
  }

  /** The row fetch() returns first: the earliest match in table order. */
  function FirstMatch(cart: seq<CartRow>, userId: int, productId: int, variationId: Option<int>): (r: Option<nat>)
    ensures r.Some? ==> r.value < |cart| && Matches(cart[r.value], userId, productId, variationId)
    ensures r.Some? ==> forall j :: 0 <= j < r.value ==> !Matches(cart[j], userId, productId, variationId)
    ensures r.None? ==> forall j :: 0 <= j < |cart| ==> !Matches(cart[j], userId, productId, variationId)
  {
    if |cart| == 0 then None
    else if Matches(cart[0], userId, productId, variationId) then Some(0)
    else match FirstMatch(cart[1..], userId, productId, variationId)
      case None => None
      case Some(i) => Some(i + 1)
  }

  /** isInCart. */
  predicate IsInCart(t: Tables, userId: int, productId: int, variationId: Option<int>) {
    FirstMatch(t.cart, userId, productId, variationId).Some?
  }

  /** The rows of one user, in table order. */
  function UserRows(cart: seq<CartRow>, userId: int): (r: seq<CartRow>)
    ensures forall x :: x in r <==> x in cart && x.userId == userId
    ensures |r| <= |cart|
  {
    if |cart| == 0 then []
    else (if cart[0].userId == userId then [cart[0]] else []) + UserRows(cart[1..], userId)
  }

  /** Primary-key integrity of the cart table: distinct ids, all below the next auto-increment value. */
  predicate CartIntegrity(t: Tables) {
    UniqueIds(t.cart) && IdsBelow(t.cart, t.nextCartId)
  }

  predicate UniqueIds(cart: seq<CartRow>) {
    forall i, j :: 0 <= i < j < |cart| ==> cart[i].id != cart[j].id
  }

  predicate IdsBelow(cart: seq<CartRow>, next: int) {
    forall i :: 0 <= i < |cart| ==> cart[i].id < next
  }

  // ---------------------------------------------------------------------------
  // Updates

  /** `UPDATE cart SET quantity = q WHERE id = id`. */
  function SetQuantity(cart: seq<CartRow>, id: int, q: int): (r: seq<CartRow>)
    ensures |r| == |cart|
    ensures forall i :: 0 <= i < |cart| ==> r[i] == (if cart[i].id == id then cart[i].(quantity := q) else cart[i])
  {
    if |cart| == 0 then []
    else [if cart[0].id == id then cart[0].(quantity := q) else cart[0]] + SetQuantity(cart[1..], id, q)
  }

  /** addItem: add to the first matching row, or insert a row carrying the variation id as given. */
  function ItemAdded(t: Tables, userId: int, productId: int, quantity: int, variationId: Option<int>): Tables {
    t.(cart := AddedCart(t.cart, t.nextCartId, userId, productId, quantity, variationId),
       nextCartId := if IsInCart(t, userId, productId, variationId) then t.nextCartId else t.nextCartId + 1)
  }

  /** The cart table after addItem, the next id being the auto-increment value. */
  function AddedCart(cart: seq<CartRow>, nextId: int, userId: int, productId: int, quantity: int, variationId: Option<int>): seq<CartRow> {
    match FirstMatch(cart, userId, productId, variationId)
    case Some(i) => SetQuantity(cart, cart[i].id, cart[i].quantity + quantity)
    case None => cart + [CartRow(nextId, userId, productId, quantity, variationId)]
  }

  /** updateQuantity: any quantity, zero and negative ones included, is written. */
  function QuantitySet(t: Tables, id: int, quantity: int): Tables {
    t.(cart := SetQuantity(t.cart, id, quantity))
  }

  /** removeItem: `DELETE FROM cart WHERE id = id`, whoever owns the row. */
  function RowRemoved(cart: seq<CartRow>, id: int): (r: seq<CartRow>)
    ensures forall x :: x in r <==> x in cart && x.id != id
  {
    if |cart| == 0 then []
    else (if cart[0].id == id then [] else [cart[0]]) + RowRemoved(cart[1..], id)
  }

  /** clear: `DELETE FROM cart WHERE user_id = userId`. */
  function UserCleared(cart: seq<CartRow>, userId: int): (r: seq<CartRow>)
    ensures forall x :: x in r <==> x in cart && x.userId != userId
  {
    if |cart| == 0 then []
    else (if cart[0].userId == userId then [] else [cart[0]]) + UserCleared(cart[1..], userId)
  }

  function Cleared(t: Tables, userId: int): Tables {
    t.(cart := UserCleared(t.cart, userId))
  }

  /** getItemCount: the number of rows, not the number of units. */
  function ItemCount(t: Tables, userId: int): nat {
    |UserRows(t.cart, userId)|
  }

  // ---------------------------------------------------------------------------
  // Lemmas on single updates

  /** With distinct ids, the UPDATE by id touches exactly the row at the matched position. */
  lemma SetQuantityAt(cart: seq<CartRow>, i: nat, q: int)
    requires i < |cart|
    requires forall a, b :: 0 <= a < b < |cart| ==> cart[a].id != cart[b].id
    ensures SetQuantity(cart, cart[i].id, q) == cart[i := cart[i].(quantity := q)]
  {
    var r := SetQuantity(cart, cart[i].id, q);
    forall k | 0 <= k < |cart|
      ensures r[k] == cart[i := cart[i].(quantity := q)][k]
    {
      if k < i {
        assert cart[k].id != cart[i].id;
      } else if k > i {
        assert cart[i].id != cart[k].id;
      }
    }
  }

  /**
   * addItem on a key already present adds to that row and inserts nothing; on a
   * new key it appends exactly one row with the given quantity and the next id.
   */
  lemma ItemAddedEffect(t: Tables, userId: int, productId: int, quantity: int, variationId: Option<int>)
    requires UniqueIds(t.cart)
    ensures var m := FirstMatch(t.cart, userId, productId, variationId);
      m.Some? ==> ItemAdded(t, userId, productId, quantity, variationId)
                  == t.(cart := t.cart[m.value := t.cart[m.value].(quantity := t.cart[m.value].quantity + quantity)])
    ensures FirstMatch(t.cart, userId, productId, variationId).None? ==>
      ItemAdded(t, userId, productId, quantity, variationId)
      == t.(cart := t.cart + [CartRow(t.nextCartId, userId, productId, quantity, variationId)], nextCartId := t.nextCartId + 1)
  {
    AddedCartAt(t.cart, t.nextCartId, userId, productId, quantity, variationId);
  }

  /** The cart-table part of addItem, by position. */
  lemma AddedCartAt(cart: seq<CartRow>, nextId: int, userId: int, productId: int, quantity: int, variationId: Option<int>)
    requires UniqueIds(cart)
    ensures var m := FirstMatch(cart, userId, productId, variationId);
      m.Some? ==> AddedCart(cart, nextId, userId, productId, quantity, variationId)
                  == cart[m.value := cart[m.value].(quantity := cart[m.value].quantity + quantity)]
    ensures FirstMatch(cart, userId, productId, variationId).None? ==>
      AddedCart(cart, nextId, userId, productId, quantity, variationId) == cart + [CartRow(nextId, userId, productId, quantity, variationId)]
  {
    match FirstMatch(cart, userId, productId, variationId)
    case Some(i) =>
      AddedCartFound(cart, nextId, userId, productId, quantity, variationId, i);
    case None =>
  }

  lemma AddedCartFound(cart: seq<CartRow>, nextId: int, userId: int, productId: int, quantity: int, variationId: Option<int>, i: nat)
    requires UniqueIds(cart) && FirstMatch(cart, userId, productId, variationId) == Some(i)
    ensures AddedCart(cart, nextId, userId, productId, quantity, variationId) == cart[i := cart[i].(quantity := cart[i].quantity + quantity)]
  {
    AddedCartUnfold(cart, nextId, userId, productId, quantity, variationId, i);
    SetQuantityAt(cart, i, cart[i].quantity + quantity);
  }

  /** On a match, addItem is the UPDATE by the matched row's id, and the counter stays. */
  lemma ItemAddedFound(t: Tables, userId: int, productId: int, quantity: int, variationId: Option<int>, i: nat)
    requires FirstMatch(t.cart, userId, productId, variationId) == Some(i)
    ensures i < |t.cart|
    ensures ItemAdded(t, userId, productId, quantity, variationId) == QuantitySet(t, t.cart[i].id, t.cart[i].quantity + quantity)
  {
    AddedCartUnfold(t.cart, t.nextCartId, userId, productId, quantity, variationId, i);
  }

  /** Without a match, addItem inserts one row under the next id. */
  lemma ItemAddedNew(t: Tables, userId: int, productId: int, quantity: int, variationId: Option<int>)
    requires FirstMatch(t.cart, userId, productId, variationId).None?
    ensures ItemAdded(t, userId, productId, quantity, variationId)
         == t.(cart := t.cart + [CartRow(t.nextCartId, userId, productId, quantity, variationId)], nextCartId := t.nextCartId + 1)
  {
  }

  /** On a match, addItem's cart is the UPDATE by the matched row's id. */
  lemma AddedCartUnfold(cart: seq<CartRow>, nextId: int, userId: int, productId: int, quantity: int, variationId: Option<int>, i: nat)
    requires FirstMatch(cart, userId, productId, variationId) == Some(i)
    ensures i < |cart|
    ensures AddedCart(cart, nextId, userId, productId, quantity, variationId) == SetQuantity(cart, cart[i].id, cart[i].quantity + quantity)
  {
  }

  /** addItem keeps the primary key intact. */
  lemma ItemAddedIntegrity(t: Tables, userId: int, productId: int, quantity: int, variationId: Option<int>)
    requires CartIntegrity(t)
    ensures CartIntegrity(ItemAdded(t, userId, productId, quantity, variationId))
  {
    ItemAddedEffect(t, userId, productId, quantity, variationId);
    var t' := ItemAdded(t, userId, productId, quantity, variationId);
    match FirstMatch(t.cart, userId, productId, variationId)
    case Some(i) =>
      assert forall k :: 0 <= k < |t'.cart| ==> t'.cart[k].id == t.cart[k].id;
    case None =>
      var c := t'.cart;
      forall a, b | 0 <= a < b < |c|
        ensures c[a].id != c[b].id
      {
        if b == |t.cart| {
          assert c[a] == t.cart[a];
        } else {
          assert c[a] == t.cart[a] && c[b] == t.cart[b];
        }
      }
      assert IdsBelow(c, t'.nextCartId);
  }

  /** The key a row is stored under. */
  function KeyOf(row: CartRow): (int, int, Option<int>) {
    (row.userId, row.productId, row.variationId)
  }

  /** At most one row per (user, product, variation). */
  predicate OneRowPerKey(cart: seq<CartRow>) {
    forall i, j :: 0 <= i < j < |cart| ==> KeyOf(cart[i]) != KeyOf(cart[j])
  }

  /** A variation id the lookup finds again after inserting it: NULL or truthy. */
  predicate Findable(variationId: Option<int>) {
    variationId.None? || Truthy(variationId)
  }

  /** addItem keeps one row per key as long as the variation id is NULL or truthy. */
  lemma ItemAddedKeepsOneRowPerKey(t: Tables, userId: int, productId: int, quantity: int, variationId: Option<int>)
    requires CartIntegrity(t) && OneRowPerKey(t.cart) && Findable(variationId)
    ensures OneRowPerKey(ItemAdded(t, userId, productId, quantity, variationId).cart)
  {
    ItemAddedEffect(t, userId, productId, quantity, variationId);
    var c := ItemAdded(t, userId, productId, quantity, variationId).cart;
    match FirstMatch(t.cart, userId, productId, variationId)
    case Some(i) =>
      forall a, b | 0 <= a < b < |c|
        ensures KeyOf(c[a]) != KeyOf(c[b])
      {
        assert KeyOf(c[a]) == KeyOf(t.cart[a]) && KeyOf(c[b]) == KeyOf(t.cart[b]);
      }
    case None =>
      forall a, b | 0 <= a < b < |c|
        ensures KeyOf(c[a]) != KeyOf(c[b])
      {
        if b == |t.cart| {
          assert !Matches(t.cart[a], userId, productId, variationId);
        }
      }
  }

  /** The session cart of one guest, holding one product. */
  function ZeroVariationExample(): Tables {
    Tables(map[], map[], map[], [], map[], [], map[], [], [], [], [], 1, 1, 1, 1, 1, 1, "pending")
  }

  /**
   * A falsy but non-NULL variation id (0, which intval makes of an empty form
   * field) is looked up as NULL and inserted as 0: adding the same item twice
   * leaves two rows under one key, and isInCart does not find the item.
   */
  lemma ZeroVariationDuplicates()
    ensures var t1 := ItemAdded(ZeroVariationExample(), 7, 3, 1, Some(0));
      var t2 := ItemAdded(t1, 7, 3, 1, Some(0));
      && !IsInCart(t1, 7, 3, Some(0))
      && |t2.cart| == 2
      && KeyOf(t2.cart[0]) == KeyOf(t2.cart[1])
      && !OneRowPerKey(t2.cart)
  {
    var t1 := ItemAdded(ZeroVariationExample(), 7, 3, 1, Some(0));
    assert t1.cart == [CartRow(1, 7, 3, 1, Some(0))];
    assert !Matches(t1.cart[0], 7, 3, Some(0));
    var t2 := ItemAdded(t1, 7, 3, 1, Some(0));
    assert t2.cart == [CartRow(1, 7, 3, 1, Some(0)), CartRow(2, 7, 3, 1, Some(0))];
  }

  /** After addItem with a NULL or truthy variation id, isInCart finds the item. */
  lemma ItemAddedIsInCart(t: Tables, userId: int, productId: int, quantity: int, variationId: Option<int>)
    requires CartIntegrity(t) && Findable(variationId)
    ensures IsInCart(ItemAdded(t, userId, productId, quantity, variationId), userId, productId, variationId)
  {
    ItemAddedEffect(t, userId, productId, quantity, variationId);
    var c := ItemAdded(t, userId, productId, quantity, variationId).cart;
    match FirstMatch(t.cart, userId, productId, variationId)
    case Some(i) =>
      assert Matches(c[i], userId, productId, variationId);
    case None =>
      assert Matches(c[|t.cart|], userId, productId, variationId);
  }

  /** updateQuantity writes the given quantity, whatever it is, into the row with that id and nowhere else. */
  lemma QuantitySetEffect(t: Tables, id: int, quantity: int)
    ensures var c := QuantitySet(t, id, quantity).cart;
      && |c| == |t.cart|
      && (forall i :: 0 <= i < |c| && t.cart[i].id == id ==> c[i].quantity == quantity && KeyOf(c[i]) == KeyOf(t.cart[i]))
      && (forall i :: 0 <= i < |c| && t.cart[i].id != id ==> c[i] == t.cart[i])
      && QuantitySet(t, id, quantity) == t.(cart := c)
  {
  }

  /** After removeItem no row has that id; clear leaves the user no row and keeps everyone else's. */
  lemma RemoveAndClearEffect(t: Tables, id: int, userId: int, other: int)
    requires other != userId
    ensures forall x :: x in RowRemoved(t.cart, id) ==> x.id != id
    ensures UserRows(Cleared(t, userId).cart, userId) == []
    ensures UserRows(Cleared(t, userId).cart, other) == UserRows(t.cart, other)
    ensures ItemCount(Cleared(t, userId), userId) == 0
  {
    ClearedKeepsOthers(t.cart, userId, other);
    ClearedLeavesNone(t.cart, userId);
  }

  lemma {:induction false} ClearedLeavesNone(cart: seq<CartRow>, userId: int)
    ensures UserRows(UserCleared(cart, userId), userId) == []
    decreases |cart|
  {
    if |cart| > 0 {
      ClearedLeavesNone(cart[1..], userId);
      var head := if cart[0].userId == userId then [] else [cart[0]];
      UserRowsConcat(head, UserCleared(cart[1..], userId), userId);
    }
  }

  lemma {:induction false} ClearedKeepsOthers(cart: seq<CartRow>, userId: int, other: int)
    requires other != userId
    ensures UserRows(UserCleared(cart, userId), other) == UserRows(cart, other)
    decreases |cart|
  {
    if |cart| > 0 {
      ClearedKeepsOthers(cart[1..], userId, other);
      var head := if cart[0].userId == userId then [] else [cart[0]];
      UserRowsConcat(head, UserCleared(cart[1..], userId), other);
    }
  }

  lemma {:induction false} UserRowsConcat(a: seq<CartRow>, b: seq<CartRow>, userId: int)
    ensures UserRows(a + b, userId) == UserRows(a, userId) + UserRows(b, userId)
    decreases |a|
  {
    if |a| > 0 {
      assert (a + b)[1..] == a[1..] + b;
      UserRowsConcat(a[1..], b, userId);
    } else {
      assert a + b == b;
    }
  }

  /** getItemCount counts rows: merging into an existing row leaves it unchanged, a new key adds one. */
  lemma ItemCountAfterAdd(t: Tables, userId: int, productId: int, quantity: int, variationId: Option<int>)
    requires CartIntegrity(t)
    ensures ItemCount(ItemAdded(t, userId, productId, quantity, variationId), userId)
         == ItemCount(t, userId) + (if IsInCart(t, userId, productId, variationId) then 0 else 1)
  {
    AddedCartAt(t.cart, t.nextCartId, userId, productId, quantity, variationId);
    var c := AddedCart(t.cart, t.nextCartId, userId, productId, quantity, variationId);
    assert ItemAdded(t, userId, productId, quantity, variationId).cart == c;
    var m := FirstMatch(t.cart, userId, productId, variationId);
    if m.Some? {
      var i := m.value;
      var r := t.cart[i].(quantity := t.cart[i].quantity + quantity);
      assert c == t.cart[i := r];
      UserRowsUpdate(t.cart, i, r, userId);
      assert |UserRows(c, userId)| == |UserRows(t.cart, userId)|;
    } else {
      var r := CartRow(t.nextCartId, userId, productId, quantity, variationId);
      assert c == t.cart + [r];
      UserRowsConcat(t.cart, [r], userId);
      assert UserRows([r], userId) == [r];
      assert |UserRows(c, userId)| == |UserRows(t.cart, userId)| + 1;
    }
  }

  /** Replacing a row by one of the same owner keeps the number of that user's rows. */
  lemma {:induction false} UserRowsUpdate(cart: seq<CartRow>, i: nat, r: CartRow, userId: int)
    requires i < |cart| && r.userId == cart[i].userId
    ensures |UserRows(cart[i := r], userId)| == |UserRows(cart, userId)|
    ensures cart[i].userId != userId ==> UserRows(cart[i := r], userId) == UserRows(cart, userId)
    decreases |cart|
  {
    if i > 0 {
      assert cart[i := r][1..] == cart[1..][i - 1 := r];
      UserRowsUpdate(cart[1..], i - 1, r, userId);
    } else {
      assert cart[i := r][1..] == cart[1..];
    }
  }

  // ---------------------------------------------------------------------------
  // Quantity per key

  /** The variation part of the key as the lookup sees it: falsy ids count as NULL. */
  function Norm(variationId: Option<int>): Option<int> {
    if Truthy(variationId) then variationId else None
  }

  function RowQty(row: CartRow, productId: int, variation: Option<int>): int {
    if row.productId == productId && Norm(row.variationId) == variation then row.quantity else 0
  }

  /** Units of (product, variation) in a list of rows. */
  function RowsQty(rows: seq<CartRow>, productId: int, variation: Option<int>): int {
    if |rows| == 0 then 0 else RowQty(rows[0], productId, variation) + RowsQty(rows[1..], productId, variation)
  }

  /** Units of (product, variation) in one user's cart. */
  function UserQty(cart: seq<CartRow>, userId: int, productId: int, variation: Option<int>): int {
    RowsQty(UserRows(cart, userId), productId, variation)
  }

  lemma {:induction false} RowsQtyConcat(a: seq<CartRow>, b: seq<CartRow>, p: int, v: Option<int>)
    ensures RowsQty(a + b, p, v) == RowsQty(a, p, v) + RowsQty(b, p, v)
    decreases |a|
  {
    if |a| > 0 {
      assert (a + b)[1..] == a[1..] + b;
      RowsQtyConcat(a[1..], b, p, v);
    } else {
      assert a + b == b;
    }
  }

  lemma {:induction false} UserQtyUpdate(cart: seq<CartRow>, i: nat, r: CartRow, u: int, p: int, v: Option<int>)
    requires i < |cart| && r.userId == cart[i].userId
    ensures UserQty(cart[i := r], u, p, v)
         == UserQty(cart, u, p, v) + (if cart[i].userId == u then RowQty(r, p, v) - RowQty(cart[i], p, v) else 0)
    decreases |cart|
  {
    var c := cart[i := r];
    if i > 0 {
      assert c[1..] == cart[1..][i - 1 := r];
      UserQtyUpdate(cart[1..], i - 1, r, u, p, v);
      assert c[0] == cart[0];
      var head := if cart[0].userId == u then [cart[0]] else [];
      RowsQtyConcat(head, UserRows(c[1..], u), p, v);
      RowsQtyConcat(head, UserRows(cart[1..], u), p, v);
    } else {
      assert c[1..] == cart[1..];
      var headOld := if cart[0].userId == u then [cart[0]] else [];
      var headNew := if c[0].userId == u then [c[0]] else [];
      RowsQtyConcat(headOld, UserRows(cart[1..], u), p, v);
      RowsQtyConcat(headNew, UserRows(cart[1..], u), p, v);
    }
  }

  lemma UserQtyAppend(cart: seq<CartRow>, r: CartRow, u: int, p: int, v: Option<int>)
    ensures UserQty(cart + [r], u, p, v) == UserQty(cart, u, p, v) + (if r.userId == u then RowQty(r, p, v) else 0)
  {
    UserRowsConcat(cart, [r], u);
    assert UserRows([r], u) == if r.userId == u then [r] else [];
    RowsQtyConcat(UserRows(cart, u), UserRows([r], u), p, v);
  }

  /**
   * addItem adds exactly the given quantity to the user's units of that
   * (product, variation) key and changes no other key and no other user, for
   * every variation id, falsy ones included.
   */
  lemma ItemAddedQty(t: Tables, userId: int, productId: int, quantity: int, variationId: Option<int>, u: int, p: int, v: Option<int>)
    requires CartIntegrity(t)
    ensures UserQty(ItemAdded(t, userId, productId, quantity, variationId).cart, u, p, v)
         == UserQty(t.cart, u, p, v) + (if u == userId && p == productId && v == Norm(variationId) then quantity else 0)
  {
    AddedCartQty(t.cart, t.nextCartId, userId, productId, quantity, variationId, u, p, v);
  }

  lemma AddedCartQty(cart: seq<CartRow>, nextId: int, userId: int, productId: int, quantity: int, variationId: Option<int>, u: int, p: int, v: Option<int>)
    requires UniqueIds(cart)
    ensures UserQty(AddedCart(cart, nextId, userId, productId, quantity, variationId), u, p, v)
         == UserQty(cart, u, p, v) + (if u == userId && p == productId && v == Norm(variationId) then quantity else 0)
  {
    match FirstMatch(cart, userId, productId, variationId)
    case Some(i) =>
      AddedCartFound(cart, nextId, userId, productId, quantity, variationId, i);
      FoundRowQty(cart, i, quantity, userId, productId, variationId, u, p, v);
    case None =>
      UserQtyAppend(cart, CartRow(nextId, userId, productId, quantity, variationId), u, p, v);
  }

  /** Adding to the matched row adds the quantity to that key of that user only. */
  lemma FoundRowQty(cart: seq<CartRow>, i: nat, quantity: int, userId: int, productId: int, variationId: Option<int>, u: int, p: int, v: Option<int>)
    requires i < |cart| && Matches(cart[i], userId, productId, variationId)
    ensures UserQty(cart[i := cart[i].(quantity := cart[i].quantity + quantity)], u, p, v)
         == UserQty(cart, u, p, v) + (if u == userId && p == productId && v == Norm(variationId) then quantity else 0)
  {
    UserQtyUpdate(cart, i, cart[i].(quantity := cart[i].quantity + quantity), u, p, v);
    assert Norm(cart[i].variationId) == Norm(variationId);
  }

  /** addItem leaves every other user's rows as they were. */
  lemma ItemAddedKeepsOthers(t: Tables, userId: int, productId: int, quantity: int, variationId: Option<int>, other: int)
    requires CartIntegrity(t) && other != userId
    ensures UserRows(ItemAdded(t, userId, productId, quantity, variationId).cart, other) == UserRows(t.cart, other)
  {
    AddedCartKeepsOthers(t.cart, t.nextCartId, userId, productId, quantity, variationId, other);
  }

  lemma AddedCartKeepsOthers(cart: seq<CartRow>, nextId: int, userId: int, productId: int, quantity: int, variationId: Option<int>, other: int)
    requires UniqueIds(cart) && other != userId
    ensures UserRows(AddedCart(cart, nextId, userId, productId, quantity, variationId), other) == UserRows(cart, other)
  {
    match FirstMatch(cart, userId, productId, variationId)
    case Some(i) =>
      AddedCartFound(cart, nextId, userId, productId, quantity, variationId, i);
      UpdateKeepsOthers(cart, i, cart[i].(quantity := cart[i].quantity + quantity), other);
    case None =>
      AppendKeepsOthers(cart, CartRow(nextId, userId, productId, quantity, variationId), other);
  }

  lemma UpdateKeepsOthers(cart: seq<CartRow>, i: nat, r: CartRow, other: int)
    requires i < |cart| && r.userId == cart[i].userId && cart[i].userId != other
    ensures UserRows(cart[i := r], other) == UserRows(cart, other)
  {
    UserRowsUpdate(cart, i, r, other);
  }

  lemma AppendKeepsOthers(cart: seq<CartRow>, r: CartRow, other: int)
    requires r.userId != other
    ensures UserRows(cart + [r], other) == UserRows(cart, other)
  {
    UserRowsConcat(cart, [r], other);
    assert UserRows([r], other) == [];
  }

  // ---------------------------------------------------------------------------
  // mergeCart

  /** The mergeCart loop: each guest row goes through isInCart and then addItem or the identical insert. */
  function MergeRows(t: Tables, rows: seq<CartRow>, userId: int): Tables
    decreases |rows|
  {
    if |rows| == 0 then t
    else MergeRows(ItemAdded(t, userId, rows[0].productId, rows[0].quantity, rows[0].variationId), rows[1..], userId)
  }

  /** mergeCart: merge the guest's rows (read before the loop) into the user's cart, then clear the guest cart. */
  function Merged(t: Tables, tempUserId: int, userId: int): Tables {
    Cleared(MergeRows(t, UserRows(t.cart, tempUserId), userId), tempUserId)
  }

  lemma {:induction false} MergeRowsEffect(t: Tables, rows: seq<CartRow>, userId: int, u: int, p: int, v: Option<int>)
    requires CartIntegrity(t)
    ensures CartIntegrity(MergeRows(t, rows, userId))
    ensures UserQty(MergeRows(t, rows, userId).cart, u, p, v)
         == UserQty(t.cart, u, p, v) + (if u == userId then RowsQty(rows, p, v) else 0)
    ensures u != userId ==> UserRows(MergeRows(t, rows, userId).cart, u) == UserRows(t.cart, u)
    decreases |rows|
  {
    if |rows| > 0 {
      var r := rows[0];
      var t1 := ItemAdded(t, userId, r.productId, r.quantity, r.variationId);
      ItemAddedIntegrity(t, userId, r.productId, r.quantity, r.variationId);
      ItemAddedQty(t, userId, r.productId, r.quantity, r.variationId, u, p, v);
      if u != userId {
        ItemAddedKeepsOthers(t, userId, r.productId, r.quantity, r.variationId, u);
      }
      MergeRowsEffect(t1, rows[1..], userId, u, p, v);
    }
  }

  lemma {:induction false} UserRowsOwn(cart: seq<CartRow>, u: int, p: int, v: Option<int>)
    ensures RowsQty(UserRows(cart, u), p, v) == UserQty(cart, u, p, v)
  {
  }

  lemma ClearedQty(cart: seq<CartRow>, userId: int, u: int, p: int, v: Option<int>)
    ensures UserQty(UserCleared(cart, userId), u, p, v) == if u == userId then 0 else UserQty(cart, u, p, v)
  {
    if u != userId {
      ClearedKeepsOthers(cart, userId, u);
    }
  }

  /**
   * After mergeCart the guest cart is empty, every (product, variation) key of
   * the user holds its prior units plus the guest's units, and no third user's
   * rows change.
   */
  lemma MergedEffect(t: Tables, tempUserId: int, userId: int, p: int, v: Option<int>, other: int)
    requires CartIntegrity(t) && tempUserId != userId
    ensures CartIntegrity(Merged(t, tempUserId, userId))
    ensures UserRows(Merged(t, tempUserId, userId).cart, tempUserId) == []
    ensures UserQty(Merged(t, tempUserId, userId).cart, userId, p, v)
         == UserQty(t.cart, userId, p, v) + UserQty(t.cart, tempUserId, p, v)
    ensures other != userId && other != tempUserId ==>
      UserRows(Merged(t, tempUserId, userId).cart, other) == UserRows(t.cart, other)
  {
    var rows := UserRows(t.cart, tempUserId);
    var m := MergeRows(t, rows, userId);
    MergeRowsEffect(t, rows, userId, userId, p, v);
    ClearedQty(m.cart, tempUserId, userId, p, v);
    RemoveAndClearEffect(m, 0, tempUserId, userId);
    if other != userId && other != tempUserId {
      MergeRowsEffect(t, rows, userId, other, p, v);
      ClearedKeepsOthers(m.cart, tempUserId, other);
    }
    assert CartIntegrity(Cleared(m, tempUserId)) by {
      UserClearedSubsequence(m.cart, tempUserId);
      var c := Cleared(m, tempUserId).cart;
      forall k | 0 <= k < |c| ensures c[k].id < m.nextCartId {
        assert c[k] in m.cart;
      }
    }
  }

  /** Merging a cart into itself reads the user's rows, doubles them, then deletes them all. */
  lemma MergeIntoSelfEmpties(t: Tables, userId: int)
    ensures UserRows(Merged(t, userId, userId).cart, userId) == []
  {
    RemoveAndClearEffect(MergeRows(t, UserRows(t.cart, userId), userId), 0, userId, userId + 1);
  }

  /** The delete keeps the surviving rows in order, so distinct ids stay distinct. */
  lemma {:induction false} UserClearedSubsequence(cart: seq<CartRow>, userId: int)
    requires UniqueIds(cart)
    ensures UniqueIds(UserCleared(cart, userId))
    decreases |cart|
  {
    if |cart| > 0 {
      UserClearedSubsequence(cart[1..], userId);
      var rest := UserCleared(cart[1..], userId);
      if cart[0].userId != userId {
        var r := UserCleared(cart, userId);
        assert r == [cart[0]] + rest;
        forall i, j | 0 <= i < j < |r|
          ensures r[i].id != r[j].id
        {
          if i == 0 {
            assert r[j] == rest[j - 1];
            assert rest[j - 1] in cart[1..];
            var k :| 0 <= k < |cart[1..]| && cart[1..][k] == rest[j - 1];
            assert cart[k + 1] == r[j];
          } else {
            assert r[i] == rest[i - 1] && r[j] == rest[j - 1];
          }
        }
      }
    }
  }

  // ---------------------------------------------------------------------------
  // The joined item list and its total

  /** A row of getItems: the cart row joined with its product's price and its variation's adjustment. */
  datatype CartLine = CartLine(
    id: int,
    productId: int,
    quantity: int,
    variationId: Option<int>,
    price: Option<int>,
    priceAdjustment: Option<int>)

  function LineOf(t: Tables, row: CartRow): CartLine {
    CartLine(row.id, row.productId, row.quantity, row.variationId,
      if row.productId in t.products then Some(t.products[row.productId].price) else None,
      if row.variationId.Some? && row.variationId.value in t.variations
      then t.variations[row.variationId.value].priceAdjustment else None)
  }

  function LinesOf(t: Tables, rows: seq<CartRow>): (r: seq<CartLine>)
    ensures |r| == |rows|
    ensures forall i :: 0 <= i < |rows| ==> r[i] == LineOf(t, rows[i])
  {
    if |rows| == 0 then [] else [LineOf(t, rows[0])] + LinesOf(t, rows[1..])
  }

  /** getItems. */
  function Items(t: Tables, userId: int): seq<CartLine> {
    LinesOf(t, UserRows(t.cart, userId))
  }

  /** The unit price: the product price plus the adjustment when set; a NULL price counts as 0. */
  function UnitPrice(line: CartLine): int {
    line.price.GetOr(0) + line.priceAdjustment.GetOr(0)
  }

  function Subtotal(line: CartLine): int {
    UnitPrice(line) * line.quantity
  }

  function Sum(lines: seq<CartLine>): int {
    if |lines| == 0 then 0 else Subtotal(lines[0]) + Sum(lines[1..])
  }

  lemma {:induction false} SumConcat(a: seq<CartLine>, b: seq<CartLine>)
    ensures Sum(a + b) == Sum(a) + Sum(b)
    decreases |a|
  {
    if |a| > 0 {
      assert (a + b)[1..] == a[1..] + b;
      SumConcat(a[1..], b);
    } else {
      assert a + b == b;
    }
  }

  /** One step of a running total: the sum from i is line i's subtotal plus the sum from i + 1. */
  lemma SumStep(lines: seq<CartLine>, i: nat)
    requires i < |lines|
    ensures Sum(lines[i..]) == Subtotal(lines[i]) + Sum(lines[i + 1..])
  {
    assert lines[i..][1..] == lines[i + 1..];
  }

  /** getTotalAmount: the loop over getItems. */
  method GetTotalAmount(t: Tables, userId: int) returns (total: int)
    ensures total == Sum(Items(t, userId))
  {
    var items := Items(t, userId);
    total := 0;
    var i := 0;
    while i < |items|
      invariant 0 <= i <= |items|
      invariant total + Sum(items[i..]) == Sum(items)
    {
      SumStep(items, i);
      var price := items[i].price.GetOr(0);
      if items[i].priceAdjustment.Some? {
        price := price + items[i].priceAdjustment.value;
      }
      total := total + price * items[i].quantity;
      i := i + 1;
    }
  }

  /** The total does not look at stock: it is the same whatever the stock columns hold. */
  lemma TotalIgnoresStock(t: Tables, userId: int, stock: map<Sku, int>)
    ensures Sum(Items(t.(stock := stock), userId)) == Sum(Items(t, userId))
  {
    assert Items(t.(stock := stock), userId) == Items(t, userId);
  }

  /** A new row adds its own subtotal to the total. */
  lemma TotalAfterInsert(t: Tables, userId: int, productId: int, quantity: int, variationId: Option<int>)
    requires !IsInCart(t, userId, productId, variationId)
    ensures Sum(Items(ItemAdded(t, userId, productId, quantity, variationId), userId))
         == Sum(Items(t, userId)) + Subtotal(LineOf(t, CartRow(t.nextCartId, userId, productId, quantity, variationId)))
  {
    var r := CartRow(t.nextCartId, userId, productId, quantity, variationId);
    var t' := ItemAdded(t, userId, productId, quantity, variationId);
    assert t'.cart == t.cart + [r];
    AppendOwnRow(t.cart, r, userId);
    SameCatalogueLines(t, t', UserRows(t'.cart, userId));
    LinesOfAppend(t, UserRows(t.cart, userId), r);
    SumConcat(Items(t, userId), [LineOf(t, r)]);
  }

  lemma AppendOwnRow(cart: seq<CartRow>, r: CartRow, userId: int)
    requires r.userId == userId
    ensures UserRows(cart + [r], userId) == UserRows(cart, userId) + [r]
  {
    UserRowsConcat(cart, [r], userId);
    assert UserRows([r], userId) == [r];
  }

  /** The joined lines read only the products and variations. */
  lemma SameCatalogueLines(t: Tables, t': Tables, rows: seq<CartRow>)
    requires t'.products == t.products && t'.variations == t.variations
    ensures LinesOf(t', rows) == LinesOf(t, rows)
  {
  }

  lemma LinesOfAppend(t: Tables, rows: seq<CartRow>, r: CartRow)
    ensures LinesOf(t, rows + [r]) == LinesOf(t, rows) + [LineOf(t, r)]
  {
  }

  // ---------------------------------------------------------------------------
  // The class's methods

  method AddItem(db: Database, userId: int, productId: int, quantity: int, variationId: Option<int>) returns (ok: bool)
    modifies db
    ensures ok
    ensures db.data == ItemAdded(old(db.data), userId, productId, quantity, variationId)
    ensures db.savepoint == old(db.savepoint)
  {
    var t := db.data;
    var found := FirstMatch(t.cart, userId, productId, variationId);
    if found.Some? {
      var i := found.value;
      ItemAddedFound(t, userId, productId, quantity, variationId, i);
      db.data := QuantitySet(t, t.cart[i].id, t.cart[i].quantity + quantity);
    } else {
      ItemAddedNew(t, userId, productId, quantity, variationId);
      db.data := t.(cart := t.cart + [CartRow(t.nextCartId, userId, productId, quantity, variationId)],
                    nextCartId := t.nextCartId + 1);
    }
    return true;
  }

  method UpdateQuantity(db: Database, id: int, quantity: int) returns (ok: bool)
    modifies db
    ensures ok && db.data == QuantitySet(old(db.data), id, quantity)
    ensures db.savepoint == old(db.savepoint)
  {
    db.data := db.data.(cart := SetQuantity(db.data.cart, id, quantity));
    return true;
  }

  method RemoveItem(db: Database, id: int) returns (ok: bool)
    modifies db
    ensures ok && db.data == old(db.data).(cart := RowRemoved(old(db.data).cart, id))
    ensures db.savepoint == old(db.savepoint)
  {
    db.data := db.data.(cart := RowRemoved(db.data.cart, id));
    return true;
  }

  method Clear(db: Database, userId: int) returns (ok: bool)
    modifies db
    ensures ok && db.data == Cleared(old(db.data), userId)
    ensures db.savepoint == old(db.savepoint)
  {
    db.data := db.data.(cart := UserCleared(db.data.cart, userId));
    return true;
  }

  /** What mergeCart does: it returns true, or throws when a transaction is already open. */
  datatype MergeOutcome = MergeReturned | MergeThrew

  /**
   * mergeCart. The guest rows are fetched before beginTransaction, which PDO
   * refuses with an exception when a transaction is already open; the exception
   * is not inside the try block and leaves the method.
   */
  method MergeCart(db: Database, tempUserId: int, userId: int) returns (r: MergeOutcome)
    modifies db
    ensures old(db.InTransaction()) ==> r == MergeThrew && db.data == old(db.data) && db.savepoint == old(db.savepoint)
    ensures !old(db.InTransaction()) ==>
      r == MergeReturned && db.data == Merged(old(db.data), tempUserId, userId) && db.savepoint == None
  {
    var rows := UserRows(db.data.cart, tempUserId);
    if db.InTransaction() {
      return MergeThrew;
    }
    db.BeginTransaction();
    ghost var start := db.data;
    var i := 0;
    while i < |rows|
      invariant 0 <= i <= |rows|
      invariant db.savepoint == Some(start)
      invariant MergeRows(db.data, rows[i..], userId) == MergeRows(start, rows, userId)
    {
      assert rows[i..][1..] == rows[i + 1..];
      var row := rows[i];
      var present := IsInCart(db.data, userId, row.productId, row.variationId);
      if present {
        var _ := AddItem(db, userId, row.productId, row.quantity, row.variationId);
      } else {
        db.data := db.data.(cart := db.data.cart + [CartRow(db.data.nextCartId, userId, row.productId, row.quantity, row.variationId)],
                            nextCartId := db.data.nextCartId + 1);
      }
      i := i + 1;
    }
    var _ := Clear(db, tempUserId);
    db.Commit();
    return MergeReturned;
  }
}
