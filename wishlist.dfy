/**
 * The Wishlist class: a set of (user, product) pairs kept as rows of the
 * wishlist table, with an add that does not duplicate a pair, the deletes,
 * and the move of a wishlisted product into the cart.
 */
module WishlistTable {
  import opened Schema
  import opened Store
  import CartTable

  predicate Wished(row: WishlistRow, userId: int, productId: int) {
    row.userId == userId && row.productId == productId
  }

  /** isInWishlist: some row holds the pair. */
  predicate IsInWishlist(t: Tables, userId: int, productId: int) {
    exists i :: 0 <= i < |t.wishlist| && Wished(t.wishlist[i], userId, productId)
  }

  /** add: a listed pair is left as it is; a new pair gets one row with the next id. */
  function WishAdded(t: Tables, userId: int, productId: int): Tables {
    if IsInWishlist(t, userId, productId) then t
    else t.(wishlist := t.wishlist + [WishlistRow(t.nextWishlistId, userId, productId)],
            nextWishlistId := t.nextWishlistId + 1)
  }

  /** The rows that a `DELETE ... WHERE user_id = ? AND product_id = ?` keeps. */
  function WithoutPair(w: seq<WishlistRow>, userId: int, productId: int): (r: seq<WishlistRow>)
    ensures forall x :: x in r <==> x in w && !Wished(x, userId, productId)
    ensures |r| <= |w|
  {
    if w == [] then []
    else (if Wished(w[0], userId, productId) then [] else [w[0]]) + WithoutPair(w[1..], userId, productId)
  }

  /** The rows that a `DELETE ... WHERE user_id = ?` keeps. */
  function WithoutUser(w: seq<WishlistRow>, userId: int): (r: seq<WishlistRow>)
    ensures forall x :: x in r <==> x in w && x.userId != userId
  {
    if w == [] then []
    else (if w[0].userId == userId then [] else [w[0]]) + WithoutUser(w[1..], userId)
  }

  /** The rows that a `DELETE ... WHERE product_id = ?` keeps. */
  function WithoutProduct(w: seq<WishlistRow>, productId: int): (r: seq<WishlistRow>)
    ensures forall x :: x in r <==> x in w && x.productId != productId
  {
    if w == [] then []
    else (if w[0].productId == productId then [] else [w[0]]) + WithoutProduct(w[1..], productId)
  }

  function WishRemoved(t: Tables, userId: int, productId: int): Tables {
    t.(wishlist := WithoutPair(t.wishlist, userId, productId))
  }

  /** The first row with this id, which addToCart reads. */
  function RowWithId(w: seq<WishlistRow>, id: int): (r: Option<WishlistRow>)
    ensures r.Some? <==> exists i :: 0 <= i < |w| && w[i].id == id
    ensures r.Some? ==> r.value in w && r.value.id == id
  {
    if w == [] then None
    else if w[0].id == id then Some(w[0])
    else RowWithId(w[1..], id)
  }

  /** addToCart: an unknown wishlist id is false; otherwise the cart's addItem, without a variation. */
  function MovedToCart(t: Tables, wishlistId: int, userId: int, quantity: int): Step {
    match RowWithId(t.wishlist, wishlistId)
    case None => Step(false, t)
    case Some(row) => Step(true, CartTable.ItemAdded(t, userId, row.productId, quantity, None))
  }

  /** countUserWishlist: the number of the user's rows. */
  function CountUser(w: seq<WishlistRow>, userId: int): nat {
    if w == [] then 0 else (if w[0].userId == userId then 1 else 0) + CountUser(w[1..], userId)
  }

  // ---------------------------------------------------------------------------
  // The table's invariant: one row per pair

  predicate OnePerPair(w: seq<WishlistRow>) {
    forall i, j :: 0 <= i < j < |w| ==> !(w[i].userId == w[j].userId && w[i].productId == w[j].productId)
  }

  lemma WithoutPairSubsequence(w: seq<WishlistRow>, userId: int, productId: int)
    requires OnePerPair(w)
    ensures OnePerPair(WithoutPair(w, userId, productId))
  {
    if w != [] {
      WithoutPairSubsequence(w[1..], userId, productId);
      var rest := WithoutPair(w[1..], userId, productId);
      forall x | x in rest
        ensures !(x.userId == w[0].userId && x.productId == w[0].productId)
      {
        var k :| 0 <= k < |w[1..]| && w[1..][k] == x;
        assert w[k + 1] == x;
      }
    }
  }

  /**
   * add is idempotent: a second add of the same pair changes nothing, a listed
   * pair is not inserted again, and a new pair gets exactly one row and is
   * listed afterwards. The table keeps one row per pair.
   */
  lemma AddEffect(t: Tables, userId: int, productId: int)
    ensures var r := WishAdded(t, userId, productId);
      && WishAdded(r, userId, productId) == r
      && IsInWishlist(r, userId, productId)
      && (IsInWishlist(t, userId, productId) ==> r == t)
      && (!IsInWishlist(t, userId, productId) ==> r.wishlist == t.wishlist + [WishlistRow(t.nextWishlistId, userId, productId)])
      && (OnePerPair(t.wishlist) ==> OnePerPair(r.wishlist))
      && r == t.(wishlist := r.wishlist, nextWishlistId := r.nextWishlistId)
  {
    var r := WishAdded(t, userId, productId);
    if !IsInWishlist(t, userId, productId) {
      assert Wished(r.wishlist[|t.wishlist|], userId, productId);
    }
  }

  /** After remove the pair is no longer listed, and every other pair is listed exactly as before. */
  lemma RemoveEffect(t: Tables, userId: int, productId: int, u: int, p: int)
    ensures !IsInWishlist(WishRemoved(t, userId, productId), userId, productId)
    ensures (u, p) != (userId, productId) ==> (IsInWishlist(WishRemoved(t, userId, productId), u, p) <==> IsInWishlist(t, u, p))
    ensures OnePerPair(t.wishlist) ==> OnePerPair(WishRemoved(t, userId, productId).wishlist)
  {
    var w := WishRemoved(t, userId, productId).wishlist;
    forall i | 0 <= i < |w|
      ensures !Wished(w[i], userId, productId)
    {
      assert w[i] in w;
    }
    if (u, p) != (userId, productId) {
      if IsInWishlist(t, u, p) {
        var i :| 0 <= i < |t.wishlist| && Wished(t.wishlist[i], u, p);
        assert t.wishlist[i] in w;
      }
      if IsInWishlist(WishRemoved(t, userId, productId), u, p) {
        var i :| 0 <= i < |w| && Wished(w[i], u, p);
        assert w[i] in t.wishlist;
      }
    }
    if OnePerPair(t.wishlist) {
      WithoutPairSubsequence(t.wishlist, userId, productId);
    }
  }

  /** add then remove of a new pair gives back the rows it started from. */
  lemma AddThenRemove(t: Tables, userId: int, productId: int)
    requires !IsInWishlist(t, userId, productId)
    ensures WishRemoved(WishAdded(t, userId, productId), userId, productId).wishlist == t.wishlist
  {
    WithoutPairConcat(t.wishlist, [WishlistRow(t.nextWishlistId, userId, productId)], userId, productId);
    WithoutAbsentPair(t.wishlist, userId, productId);
  }

  lemma WithoutPairConcat(a: seq<WishlistRow>, b: seq<WishlistRow>, userId: int, productId: int)
    ensures WithoutPair(a + b, userId, productId) == WithoutPair(a, userId, productId) + WithoutPair(b, userId, productId)
  {
    if a != [] {
      assert (a + b)[1..] == a[1..] + b;
      assert (a + b)[0] == a[0];
      WithoutPairConcat(a[1..], b, userId, productId);
      var h := if Wished(a[0], userId, productId) then [] else [a[0]];
      assert WithoutPair(a + b, userId, productId) == h + WithoutPair(a[1..] + b, userId, productId);
    } else {
      assert a + b == b;
    }
  }

  lemma WithoutAbsentPair(w: seq<WishlistRow>, userId: int, productId: int)
    requires forall i :: 0 <= i < |w| ==> !Wished(w[i], userId, productId)
    ensures WithoutPair(w, userId, productId) == w
  {
    if w != [] {
      WithoutAbsentPair(w[1..], userId, productId);
    }
  }

  /** After removeAllByUser the user's count is zero. */
  lemma RemoveAllByUserCount(w: seq<WishlistRow>, userId: int)
    ensures CountUser(WithoutUser(w, userId), userId) == 0
  {
    var v := WithoutUser(w, userId);
    forall i | 0 <= i < |v|
      ensures v[i].userId != userId
    {
      assert v[i] in v;
    }
    CountWithoutUser(v, userId);
  }

  lemma {:induction false} CountWithoutUser(v: seq<WishlistRow>, userId: int)
    requires forall i :: 0 <= i < |v| ==> v[i].userId != userId
    ensures CountUser(v, userId) == 0
  {
    if v != [] {
      CountWithoutUser(v[1..], userId);
    }
  }

  /** addToCart: an unknown id changes nothing; a known one adds its product to the cart with no variation. */
  lemma MovedToCartEffect(t: Tables, wishlistId: int, userId: int, quantity: int)
    ensures var r := MovedToCart(t, wishlistId, userId, quantity);
      && (r.ok <==> exists i :: 0 <= i < |t.wishlist| && t.wishlist[i].id == wishlistId)
      && (!r.ok ==> r.data == t)
      && (r.ok ==> exists row :: row in t.wishlist && row.id == wishlistId
                     && r.data == CartTable.ItemAdded(t, userId, row.productId, quantity, None))
      && r.data.wishlist == t.wishlist
  {
  }

  // ---------------------------------------------------------------------------
  // The methods

  method Add(db: Database, userId: int, productId: int) returns (ok: bool)
    modifies db
    ensures ok
    ensures db.data == WishAdded(old(db.data), userId, productId)
    ensures db.savepoint == old(db.savepoint)
  {
    if IsInWishlist(db.data, userId, productId) {
      return true;
    }
    db.data := db.data.(wishlist := db.data.wishlist + [WishlistRow(db.data.nextWishlistId, userId, productId)],
                        nextWishlistId := db.data.nextWishlistId + 1);
    return true;
  }

  method Remove(db: Database, userId: int, productId: int) returns (ok: bool)
    modifies db
    ensures ok
    ensures db.data == WishRemoved(old(db.data), userId, productId)
    ensures db.savepoint == old(db.savepoint)
  {
    db.data := db.data.(wishlist := WithoutPair(db.data.wishlist, userId, productId));
    return true;
  }

  method RemoveAllByUser(db: Database, userId: int) returns (ok: bool)
    modifies db
    ensures ok
    ensures db.data == old(db.data).(wishlist := WithoutUser(old(db.data.wishlist), userId))
    ensures db.savepoint == old(db.savepoint)
  {
    db.data := db.data.(wishlist := WithoutUser(db.data.wishlist, userId));
    return true;
  }

  method RemoveAllByProduct(db: Database, productId: int) returns (ok: bool)
    modifies db
    ensures ok
    ensures db.data == old(db.data).(wishlist := WithoutProduct(old(db.data.wishlist), productId))
    ensures db.savepoint == old(db.savepoint)
  {
    db.data := db.data.(wishlist := WithoutProduct(db.data.wishlist, productId));
    return true;
  }

  method AddToCart(db: Database, wishlistId: int, userId: int, quantity: int) returns (ok: bool)
    modifies db
    ensures Step(ok, db.data) == MovedToCart(old(db.data), wishlistId, userId, quantity)
    ensures db.savepoint == old(db.savepoint)
  {
    var row := RowWithId(db.data.wishlist, wishlistId);
    if row.None? {
      return false;
    }
    ok := CartTable.AddItem(db, userId, row.value.productId, quantity, None);
  }
}
