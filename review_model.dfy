/** The review schema: four required references, a rating bounded to
    [1, 5], an optional comment, `isVerified` defaulting to false. */
module ReviewModel {
  import opened Common

  /** A stored review. `rating` is a JSON number, so it need not be whole. */
  datatype Review = Review(
    id: ObjectId,
    requestId: ObjectId,
    customerId: ObjectId,
    workerId: ObjectId,
    workerProfileId: ObjectId,
    rating: real,
    comment: Option<string>,
    isVerified: bool,
    createdAt: int)

  /** The schema's `min: 1, max: 5` on `rating`. */
  predicate RatingInRange(x: real) {
    1.0 <= x <= 5.0
  }

  /** Building a review document and saving it: validation fails (a 500
      from the handler) when the rating is missing or outside [1, 5]. */
  function NewReview(
    id: ObjectId, requestId: ObjectId, customerId: ObjectId, workerId: ObjectId,
    workerProfileId: ObjectId, rating: Option<real>, comment: Option<string>, now: int): (r: Outcome<Review>)
    ensures r.Ok? <==> rating.Some? && RatingInRange(rating.value)
    ensures r.Fail? ==> r.error == ServerError
    ensures r.Ok? ==>
      && r.value.id == id && r.value.requestId == requestId
      && r.value.customerId == customerId && r.value.workerId == workerId
      && r.value.workerProfileId == workerProfileId
      && r.value.rating == rating.value && r.value.comment == comment
      && !r.value.isVerified && r.value.createdAt == now
  {
    if rating.None? || !RatingInRange(rating.value) then Fail(ServerError)
    else Ok(Review(id, requestId, customerId, workerId, workerProfileId, rating.value, comment, false, now))
  }

  function RatingOf(r: Review): real {
    r.rating
  }

  /** `Review.find({ workerProfileId: pid })`. */
  function ReviewsFor(reviews: seq<Review>, pid: ObjectId): (r: seq<Review>)
    ensures forall x :: x in r <==> x in reviews && x.workerProfileId == pid
  {
    Filter(reviews, (x: Review) => x.workerProfileId == pid)
  }

  /** Appending a review extends the selection for `pid` exactly when
      the review points at `pid`. */
  lemma ReviewsForAppendOne(reviews: seq<Review>, added: Review, pid: ObjectId)
    ensures ReviewsFor(reviews + [added], pid) ==
      if added.workerProfileId == pid then ReviewsFor(reviews, pid) + [added] else ReviewsFor(reviews, pid)
  {
    FilterAppend(reviews, [added], (x: Review) => x.workerProfileId == pid);
    assert [added][1..] == [];
  }

  /** `Review.findOne({ requestId })` finds something. */
  predicate HasReviewFor(reviews: seq<Review>, requestId: ObjectId) {
    exists x :: x in reviews && x.requestId == requestId
  }
}
