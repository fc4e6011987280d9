/**
 * The Review class: create is an upsert keyed by (user, product) that
 * overwrites the rating and comment of an existing review and inserts a new
 * one otherwise; getReviewCount counts a product's reviews.
 */
module ReviewTable {
  import opened Schema
  import opened Store

  predicate ByPair(row: ReviewRow, userId: int, productId: int) {
    row.userId == userId && row.productId == productId
  }

  /** The position of the first review of the pair, which the existence check fetches. */
  function FirstReview(rs: seq<ReviewRow>, userId: int, productId: int): (r: Option<nat>)
    ensures r.Some? ==> (r.value < |rs| && ByPair(rs[r.value], userId, productId)
                         && forall k :: 0 <= k < r.value ==> !ByPair(rs[k], userId, productId))
    ensures r.None? ==> forall k :: 0 <= k < |rs| ==> !ByPair(rs[k], userId, productId)
  {
    if rs == [] then None
    else if ByPair(rs[0], userId, productId) then Some(0)
    else match FirstReview(rs[1..], userId, productId)
      case None => None
      case Some(k) => Some(k + 1)
  }

  /** `UPDATE reviews SET rating, comment WHERE id = ?`. */
  function Rewritten(rs: seq<ReviewRow>, id: int, rating: int, comment: string): (r: seq<ReviewRow>)
    ensures |r| == |rs|
    ensures forall k :: 0 <= k < |rs| ==> r[k] == if rs[k].id == id then rs[k].(rating := rating, comment := comment) else rs[k]
  {
    if rs == [] then []
    else [if rs[0].id == id then rs[0].(rating := rating, comment := comment) else rs[0]] + Rewritten(rs[1..], id, rating, comment)
  }

  /** create: the rating is stored as given, with no range check. */
  function Reviewed(t: Tables, userId: int, productId: int, rating: int, comment: string): Tables {
    match FirstReview(t.reviews, userId, productId)
    case Some(k) => t.(reviews := Rewritten(t.reviews, t.reviews[k].id, rating, comment))
    case None => t.(reviews := t.reviews + [ReviewRow(t.nextReviewId, userId, productId, rating, comment)],
                    nextReviewId := t.nextReviewId + 1)
  }

  /** getReviewCount: the number of reviews of the product. */
  function ReviewCount(rs: seq<ReviewRow>, productId: int): nat {
    if rs == [] then 0 else (if rs[0].productId == productId then 1 else 0) + ReviewCount(rs[1..], productId)
  }

  // ---------------------------------------------------------------------------
  // Invariants of the table

  predicate OnePerPair(rs: seq<ReviewRow>) {
    forall i, j :: 0 <= i < j < |rs| ==> !(rs[i].userId == rs[j].userId && rs[i].productId == rs[j].productId)
  }

  predicate UniqueIds(rs: seq<ReviewRow>) {
    forall i, j :: 0 <= i < j < |rs| ==> rs[i].id != rs[j].id
  }

  predicate IdsBelow(rs: seq<ReviewRow>, next: int) {
    forall i :: 0 <= i < |rs| ==> rs[i].id < next
  }

  predicate ReviewsValid(t: Tables) {
    OnePerPair(t.reviews) && UniqueIds(t.reviews) && IdsBelow(t.reviews, t.nextReviewId)
  }

  /** The rating and comment the pair's review has, if it has one. */
  function ReviewOf(rs: seq<ReviewRow>, userId: int, productId: int): Option<(int, string)> {
    match FirstReview(rs, userId, productId)
    case None => None
    case Some(k) => Some((rs[k].rating, rs[k].comment))
  }

  /**
   * create keeps one review per pair with unique ids; afterwards the pair's
   * review holds exactly the given rating and comment, whatever the rating is,
   * and the review of every other pair is as before.
   */
  lemma ReviewedEffect(t: Tables, userId: int, productId: int, rating: int, comment: string, u: int, p: int)
    requires ReviewsValid(t)
    ensures var r := Reviewed(t, userId, productId, rating, comment);
      && ReviewsValid(r)
      && ReviewOf(r.reviews, userId, productId) == Some((rating, comment))
      && ((u, p) != (userId, productId) ==> ReviewOf(r.reviews, u, p) == ReviewOf(t.reviews, u, p))
  {
    match FirstReview(t.reviews, userId, productId)
    case Some(k) =>
      ReviewedFound(t, userId, productId, rating, comment, k);
      RewrittenValid(t.reviews, k, rating, comment, t.nextReviewId);
      RewrittenReviewOf(t.reviews, k, rating, comment, userId, productId);
      if (u, p) != (userId, productId) {
        RewrittenOtherPair(t.reviews, k, rating, comment, u, p);
      }
    case None =>
      var row := ReviewRow(t.nextReviewId, userId, productId, rating, comment);
      AppendedValid(t.reviews, row, userId, productId, t.nextReviewId);
      AppendedReviewOf(t.reviews, row, u, p);
      AppendedReviewOf(t.reviews, row, userId, productId);
  }

  lemma ReviewedFound(t: Tables, userId: int, productId: int, rating: int, comment: string, k: nat)
    requires FirstReview(t.reviews, userId, productId) == Some(k)
    ensures k < |t.reviews|
    ensures Reviewed(t, userId, productId, rating, comment) == t.(reviews := Rewritten(t.reviews, t.reviews[k].id, rating, comment))
  {
  }

  /** Rewriting a rating and comment keeps the pairs and the ids. */
  lemma RewrittenValid(rs: seq<ReviewRow>, k: nat, rating: int, comment: string, next: int)
    requires OnePerPair(rs) && UniqueIds(rs) && IdsBelow(rs, next) && k < |rs|
    ensures var ws := Rewritten(rs, rs[k].id, rating, comment);
      OnePerPair(ws) && UniqueIds(ws) && IdsBelow(ws, next)
  {
    var ws := Rewritten(rs, rs[k].id, rating, comment);
    assert forall j :: 0 <= j < |ws| ==> ws[j].userId == rs[j].userId && ws[j].productId == rs[j].productId && ws[j].id == rs[j].id;
  }

  /** A row for a pair not yet listed, with the next id, keeps the table valid. */
  lemma AppendedValid(rs: seq<ReviewRow>, row: ReviewRow, userId: int, productId: int, next: int)
    requires OnePerPair(rs) && UniqueIds(rs) && IdsBelow(rs, next)
    requires FirstReview(rs, userId, productId) == None
    requires row.userId == userId && row.productId == productId && row.id == next
    ensures OnePerPair(rs + [row]) && UniqueIds(rs + [row]) && IdsBelow(rs + [row], next + 1)
  {
  }

  lemma RewrittenReviewOf(rs: seq<ReviewRow>, k: nat, rating: int, comment: string, userId: int, productId: int)
    requires UniqueIds(rs) && k < |rs| && FirstReview(rs, userId, productId) == Some(k)
    ensures ReviewOf(Rewritten(rs, rs[k].id, rating, comment), userId, productId) == Some((rating, comment))
  {
    var ws := Rewritten(rs, rs[k].id, rating, comment);
    FirstReviewAt(ws, k, userId, productId);
  }

  lemma RewrittenOtherPair(rs: seq<ReviewRow>, k: nat, rating: int, comment: string, u: int, p: int)
    requires UniqueIds(rs) && OnePerPair(rs) && k < |rs|
    requires !ByPair(rs[k], u, p)
    ensures ReviewOf(Rewritten(rs, rs[k].id, rating, comment), u, p) == ReviewOf(rs, u, p)
  {
    var ws := Rewritten(rs, rs[k].id, rating, comment);
    match FirstReview(rs, u, p)
    case None =>
      FirstReviewNone(ws, u, p);
    case Some(m) =>
      assert m != k;
      FirstReviewAt(ws, m, u, p);
  }

  /** The first review of a pair is found where the pair first occurs. */
  lemma FirstReviewAt(rs: seq<ReviewRow>, k: nat, userId: int, productId: int)
    requires k < |rs| && ByPair(rs[k], userId, productId)
    requires forall j :: 0 <= j < k ==> !ByPair(rs[j], userId, productId)
    ensures FirstReview(rs, userId, productId) == Some(k)
  {
    if k > 0 {
      FirstReviewAt(rs[1..], k - 1, userId, productId);
    }
  }

  lemma FirstReviewNone(rs: seq<ReviewRow>, userId: int, productId: int)
    requires forall j :: 0 <= j < |rs| ==> !ByPair(rs[j], userId, productId)
    ensures FirstReview(rs, userId, productId) == None
  {
    if rs != [] {
      FirstReviewNone(rs[1..], userId, productId);
    }
  }

  lemma AppendedReviewOf(rs: seq<ReviewRow>, row: ReviewRow, u: int, p: int)
    ensures ReviewOf(rs + [row], u, p) == match FirstReview(rs, u, p)
      case Some(_) => ReviewOf(rs, u, p)
      case None => if ByPair(row, u, p) then Some((row.rating, row.comment)) else None
  {
    var s := rs + [row];
    match FirstReview(rs, u, p)
    case Some(k) =>
      FirstReviewAt(s, k, u, p);
    case None =>
      if ByPair(row, u, p) {
        FirstReviewAt(s, |rs|, u, p);
      } else {
        FirstReviewNone(s, u, p);
      }
  }

  /** create inserts one review for a new pair and rewrites in place for a listed one. */
  lemma ReviewedRows(t: Tables, userId: int, productId: int, rating: int, comment: string)
    ensures var r := Reviewed(t, userId, productId, rating, comment);
      && (FirstReview(t.reviews, userId, productId).None? ==> r.reviews == t.reviews + [ReviewRow(t.nextReviewId, userId, productId, rating, comment)])
      && (FirstReview(t.reviews, userId, productId).Some? ==> |r.reviews| == |t.reviews|)
      && r == t.(reviews := r.reviews, nextReviewId := r.nextReviewId)
  {
  }

  /** getReviewCount after create: one more for a new pair of that product, and no change otherwise. */
  lemma ReviewCountAfter(t: Tables, userId: int, productId: int, rating: int, comment: string, q: int)
    ensures ReviewCount(Reviewed(t, userId, productId, rating, comment).reviews, q)
         == ReviewCount(t.reviews, q) + (if q == productId && FirstReview(t.reviews, userId, productId).None? then 1 else 0)
  {
    match FirstReview(t.reviews, userId, productId)
    case Some(k) =>
      RewrittenCount(t.reviews, t.reviews[k].id, rating, comment, q);
    case None =>
      ReviewCountConcat(t.reviews, [ReviewRow(t.nextReviewId, userId, productId, rating, comment)], q);
  }

  lemma {:induction false} RewrittenCount(rs: seq<ReviewRow>, id: int, rating: int, comment: string, q: int)
    ensures ReviewCount(Rewritten(rs, id, rating, comment), q) == ReviewCount(rs, q)
  {
    if rs != [] {
      RewrittenCount(rs[1..], id, rating, comment, q);
      assert Rewritten(rs, id, rating, comment)[1..] == Rewritten(rs[1..], id, rating, comment);
    }
  }

  lemma {:induction false} ReviewCountConcat(a: seq<ReviewRow>, b: seq<ReviewRow>, q: int)
    ensures ReviewCount(a + b, q) == ReviewCount(a, q) + ReviewCount(b, q)
  {
    if a == [] {
      assert a + b == b;
    } else {
      assert (a + b)[1..] == a[1..] + b;
      assert (a + b)[0] == a[0];
      ReviewCountConcat(a[1..], b, q);
    }
  }

  // ---------------------------------------------------------------------------
  // The methods

  method Create(db: Database, userId: int, productId: int, rating: int, comment: string) returns (ok: bool)
    modifies db
    ensures ok
    ensures db.data == Reviewed(old(db.data), userId, productId, rating, comment)
    ensures db.savepoint == old(db.savepoint)
  {
    var found := FirstReview(db.data.reviews, userId, productId);
    if found.Some? {
      var id := db.data.reviews[found.value].id;
      db.data := db.data.(reviews := Rewritten(db.data.reviews, id, rating, comment));
    } else {
      db.data := db.data.(reviews := db.data.reviews + [ReviewRow(db.data.nextReviewId, userId, productId, rating, comment)],
                          nextReviewId := db.data.nextReviewId + 1);
    }
    return true;
  }
}
