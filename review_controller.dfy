/** The review handlers (server/controller/review.controller.js). The review schema is not part
    of this model: its validators are parameters, a check of a new review and a check of an
    update's keys, each giving the validation error's message if it fails. */
module ReviewController {
  import opened Js
  import opened Responder

  type ReviewId = string

  datatype Review = Review(user: string, product: string, rating: int, comment: Field<string>)

  class ReviewStore {
    var reviews: map<ReviewId, Review>

    constructor ()
      ensures reviews == map[]
    {
      reviews := map[];
    }
  }

  datatype AddReviewRequest = AddReviewRequest(user: Field<string>, product: Field<string>, rating: Field<int>,
                                               comment: Field<string>)

  const FieldsMissing := "User, product, and rating are required"
  const ReviewNotFound := "Review not found"

  /** `!user || !product || !rating`: a rating of 0 is refused too. */
  predicate ReviewFieldsMissing(req: AddReviewRequest) {
    !TruthyString(req.user) || !TruthyString(req.product) || !TruthyNumber(req.rating)
  }

  /** The review `new Review({ user, product, rating, comment })` builds once the guard passes. */
  function ReviewOf(req: AddReviewRequest): (v: Review)
    requires !ReviewFieldsMissing(req)
    ensures v.user == req.user.value && v.product == req.product.value && v.rating == req.rating.value
    ensures v.comment == req.comment && v.rating != 0
  {
    Review(req.user.value, req.product.value, req.rating.value, req.comment)
  }

  /** `addReview`: exactly one review is stored, under `newId`, unless a check fails. */
  method AddReview(db: ReviewStore, req: AddReviewRequest, check: Review -> Option<string>, newId: ReviewId)
    returns (r: Response<Review>)
    modifies db
    ensures ReviewFieldsMissing(req) ==> r == Fail(FieldsMissing, 400) && db.reviews == old(db.reviews)
    ensures !ReviewFieldsMissing(req) && check(ReviewOf(req)).Some? ==>
      r == Crash(check(ReviewOf(req)).value) && db.reviews == old(db.reviews)
    ensures !ReviewFieldsMissing(req) && check(ReviewOf(req)).None? && newId in old(db.reviews) ==>
      r == Crash(DuplicateKey) && db.reviews == old(db.reviews)
    ensures !ReviewFieldsMissing(req) && check(ReviewOf(req)).None? && newId !in old(db.reviews) ==>
      && db.reviews == old(db.reviews)[newId := ReviewOf(req)]
      && r == Ok("Review added successfully", ReviewOf(req), 201)
  {
    if ReviewFieldsMissing(req) {
      return Fail(FieldsMissing, 400);
    }
    var review := ReviewOf(req);
    var invalid := check(review);
    if invalid.Some? {
      return Crash(invalid.value);
    }
    if newId in db.reviews {
      return Crash(DuplicateKey);
    }
    db.reviews := db.reviews[newId := review];
    r := Ok("Review added successfully", review, 201);
  }

  /** The keys of an update body; `None` is an absent key. */
  datatype ReviewUpdate = ReviewUpdate(user: Option<string>, product: Option<string>, rating: Option<int>,
                                       comment: Option<Field<string>>)

  function ApplyReviewUpdate(v: Review, u: ReviewUpdate): (w: Review)
    ensures w.user == Or(u.user, v.user) && w.product == Or(u.product, v.product)
    ensures w.rating == Or(u.rating, v.rating) && w.comment == Or(u.comment, v.comment)
    ensures u == ReviewUpdate(None, None, None, None) ==> w == v
  {
    Review(Or(u.user, v.user), Or(u.product, v.product), Or(u.rating, v.rating), Or(u.comment, v.comment))
  }

  /** `updateReview`: the update validators run on the given keys before the lookup. */
  method UpdateReview(db: ReviewStore, id: ReviewId, u: ReviewUpdate, check: ReviewUpdate -> Option<string>)
    returns (r: Response<Review>)
    modifies db
    ensures check(u).Some? ==> r == Crash(check(u).value) && db.reviews == old(db.reviews)
    ensures check(u).None? && id !in old(db.reviews) ==> r == Fail(ReviewNotFound, 404) && db.reviews == old(db.reviews)
    ensures check(u).None? && id in old(db.reviews) ==>
      && db.reviews == old(db.reviews)[id := ApplyReviewUpdate(old(db.reviews)[id], u)]
      && r == Ok("Review updated successfully", db.reviews[id], 200)
  {
    var invalid := check(u);
    if invalid.Some? {
      return Crash(invalid.value);
    }
    if id !in db.reviews {
      return Fail(ReviewNotFound, 404);
    }
    var updated := ApplyReviewUpdate(db.reviews[id], u);
    db.reviews := db.reviews[id := updated];
    r := Ok("Review updated successfully", updated, 200);
  }

  /** `deleteReview`: the removed review is sent back. */
  method DeleteReview(db: ReviewStore, id: ReviewId) returns (r: Response<Review>)
    modifies db
    ensures id !in old(db.reviews) ==> r == Fail(ReviewNotFound, 404) && db.reviews == old(db.reviews)
    ensures id in old(db.reviews) ==>
      db.reviews == old(db.reviews) - {id} && r == Ok("Review deleted successfully", old(db.reviews)[id], 200)
  {
    if id !in db.reviews {
      return Fail(ReviewNotFound, 404);
    }
    var review := db.reviews[id];
    db.reviews := db.reviews - {id};
    r := Ok("Review deleted successfully", review, 200);
  }

  /** `listReviews`: exactly the reviews of `productId`. */
  function ListReviews(reviews: map<ReviewId, Review>, productId: string): (r: Response<map<ReviewId, Review>>)
    ensures r.Success() && r.status == 200 && r.body.data.Data?
    ensures forall id :: id in r.body.data.value <==> id in reviews && reviews[id].product == productId
    ensures forall id :: id in r.body.data.value ==> r.body.data.value[id] == reviews[id]
  {
    Ok("Reviews fetched successfully", map id | id in reviews && reviews[id].product == productId :: reviews[id], 200)
  }

  /** Every review belongs to exactly one product's list. */
  lemma ListsPartition(reviews: map<ReviewId, Review>, id: ReviewId, p: string, q: string)
    requires id in reviews && p != q
    ensures id in ListReviews(reviews, reviews[id].product).body.data.value
    ensures !(id in ListReviews(reviews, p).body.data.value && id in ListReviews(reviews, q).body.data.value)
  {
  }
}
