/** Review creation: five checks in order, the insertion, and the
    recomputation of the worker profile's rating and review count from a
    full re-read of the reviews that point at the profile.

    As written, the new review's `workerProfileId` is the worker's user
    id while the recomputation selects reviews by the profile's own id,
    so the new review is never counted; when nothing else points at the
    profile the mean divides by zero and the profile save fails (a 500)
    after the review was stored. `CreateReview` models that;
    `CreateReviewIntended` stores the profile's id and is proved to count
    the new review. */
module ReviewRoutes {
  import opened Common
  import opened RequestModel
  import opened ReviewModel
  import opened WorkerProfileModel
  import opened Store

  /** The checks of POST /reviews, in order: the caller is a customer
      (403), the request exists (404), the caller is its customer (403),
      it is completed (400), and it has no review yet (400). */
  function ReviewChecks(caller: Principal, requests: seq<ServiceRequest>, reviews: seq<Review>, requestId: ObjectId)
    : (r: Outcome<ServiceRequest>)
    ensures caller.role != Customer ==> r == Fail(Forbidden)
    ensures caller.role == Customer && FindRequest(requests, requestId).None? ==> r == Fail(NotFound)
    ensures caller.role == Customer && FindRequest(requests, requestId).Some? ==>
      var q := requests[FindRequest(requests, requestId).value];
      && (q.customerId != caller.id ==> r == Fail(Forbidden))
      && (q.customerId == caller.id && q.status != Completed ==> r == Fail(BadRequest))
      && (q.customerId == caller.id && q.status == Completed && HasReviewFor(reviews, requestId) ==> r == Fail(BadRequest))
      && (q.customerId == caller.id && q.status == Completed && !HasReviewFor(reviews, requestId) ==> r == Ok(q))
    ensures r.Ok? ==> r.value.id == requestId && r.value.customerId == caller.id && r.value.status == Completed
  {
    if caller.role != Customer then Fail(Forbidden)
    else match FindRequest(requests, requestId)
      case None => Fail(NotFound)
      case Some(i) =>
        var q := requests[i];
        if q.customerId != caller.id then Fail(Forbidden)
        else if q.status != Completed then Fail(BadRequest)
        else if HasReviewFor(reviews, requestId) then Fail(BadRequest)
        else Ok(q)
  }

  /** The role check comes first: a non-customer is refused with 403 even
      for a request that does not exist. */
  lemma RoleCheckedBeforeExistence(caller: Principal, requests: seq<ServiceRequest>, reviews: seq<Review>, requestId: ObjectId)
    requires caller.role != Customer && FindRequest(requests, requestId).None?
    ensures ReviewChecks(caller, requests, reviews, requestId) == Fail(Forbidden)
  {
  }

  /** A second review for the same request is refused. */
  lemma SecondReviewRefused(caller: Principal, requests: seq<ServiceRequest>, reviews: seq<Review>, x: Review)
    requires x in reviews
    ensures ReviewChecks(caller, requests, reviews, x.requestId).Fail?
  {
  }

  /** A profile's rating and review count as recomputed from the reviews. */
  datatype RatingSummary = RatingSummary(rating: real, totalReviews: nat)

  /** The arithmetic mean of `n` values summing to `total`. */
  function Mean(total: real, n: nat): real
    requires n > 0
  {
    total / n as real
  }

  /** A mean of values in [lo, hi] lies in [lo, hi]. */
  lemma MeanBounds(total: real, n: nat, lo: real, hi: real)
    requires n > 0 && lo * n as real <= total <= hi * n as real
    ensures lo <= Mean(total, n) <= hi
  {
    assert Mean(total, n) * n as real == total;
  }

  /** The recomputation: the mean and the count of the reviews that point
      at profile `pid`, or `None` when there are none (the mean is then
      0/0, which the save rejects). */
  function Recompute(reviews: seq<Review>, pid: ObjectId): (r: Option<RatingSummary>)
    ensures r.None? <==> forall x :: x in reviews ==> x.workerProfileId != pid
    ensures r.Some? ==> r.value.totalReviews == |ReviewsFor(reviews, pid)| > 0
    ensures r.Some? ==> r.value.rating == Mean(Sum(ReviewsFor(reviews, pid), RatingOf), r.value.totalReviews)
    ensures r.Some? && (forall x :: x in reviews ==> RatingInRange(x.rating)) ==> RatingInRange(r.value.rating)
  {
    var matching := ReviewsFor(reviews, pid);
    if |matching| == 0 then None
    else
      assert matching[0] in matching;
      var total := Sum(matching, RatingOf);
      assert (forall x :: x in reviews ==> RatingInRange(x.rating)) ==> RatingInRange(Mean(total, |matching|)) by {
        if forall x :: x in reviews ==> RatingInRange(x.rating) {
          SumBounds(matching, RatingOf, 1.0, 5.0);
          MeanBounds(total, |matching|, 1.0, 5.0);
        }
      }
      Some(RatingSummary(Mean(total, |matching|), |matching|))
  }

  /** A review that points elsewhere leaves the recomputation for `pid` as it was. */
  lemma OtherReviewNotCounted(reviews: seq<Review>, x: Review, pid: ObjectId)
    requires x.workerProfileId != pid
    ensures Recompute(reviews + [x], pid) == Recompute(reviews, pid)
  {
    ReviewsForAppendOne(reviews, x, pid);
  }

  /** A review that points at `pid` is counted, and the mean moves to
      include its rating. */
  lemma OwnReviewCounted(reviews: seq<Review>, x: Review, pid: ObjectId)
    requires x.workerProfileId == pid
    ensures Recompute(reviews + [x], pid).Some?
    ensures Recompute(reviews + [x], pid).value.totalReviews == |ReviewsFor(reviews, pid)| + 1
    ensures Recompute(reviews + [x], pid).value.rating
            == Mean(Sum(ReviewsFor(reviews, pid), RatingOf) + x.rating, |ReviewsFor(reviews, pid)| + 1)
  {
    var before := ReviewsFor(reviews, pid);
    ReviewsForAppendOne(reviews, x, pid);
    assert ReviewsFor(reviews + [x], pid) == before + [x];
    SumAppend(before, [x], RatingOf);
    assert Sum([x], RatingOf) == x.rating;
    assert Recompute(reviews + [x], pid).Some? by {
      assert x in reviews + [x];
    }
  }

  /** The profile after a stored review: unchanged when the worker has no
      profile, a failed save when no review points at the profile, and
      otherwise the recomputed rating and count. */
  function RatingUpdate(profiles: seq<WorkerProfile>, reviews: seq<Review>, workerId: ObjectId)
    : (r: Outcome<seq<WorkerProfile>>)
    ensures FindProfileOf(profiles, workerId).None? ==> r == Ok(profiles)
    ensures r.Fail? ==> r.error == ServerError
    ensures r.Ok? ==> |r.value| == |profiles|
    ensures FindProfileOf(profiles, workerId).Some? ==>
      var k := FindProfileOf(profiles, workerId).value;
      && (r.Fail? <==> Recompute(reviews, profiles[k].id).None?)
      && (r.Ok? ==>
           var s := Recompute(reviews, profiles[k].id).value;
           && r.value[k] == profiles[k].(rating := s.rating, totalReviews := s.totalReviews)
           && forall j :: 0 <= j < |profiles| && j != k ==> r.value[j] == profiles[j])
  {
    match FindProfileOf(profiles, workerId)
    case None => Ok(profiles)
    case Some(k) =>
      match Recompute(reviews, profiles[k].id)
      case None => Fail(ServerError)
      case Some(s) => Ok(profiles[k := profiles[k].(rating := s.rating, totalReviews := s.totalReviews)])
  }

  /** Writing the recomputed rating keeps the store's invariant. */
  lemma RatingUpdateKeepsInvariant(s: State, workerId: ObjectId)
    requires Invariant(s)
    ensures var update := RatingUpdate(s.profiles, s.reviews, workerId);
      update.Ok? ==> Invariant(s.(profiles := update.value))
  {
    var update := RatingUpdate(s.profiles, s.reviews, workerId);
    var found := FindProfileOf(s.profiles, workerId);
    if update.Ok? && found.Some? {
      var k := found.value;
      ReplaceProfile(s, k, update.value[k]);
      assert update.value == s.profiles[k := update.value[k]];
    }
  }

  /** Stores `review` and recomputes the rating of the worker's profile. */
  method StoreAndRate(db: Database, review: Review, workerId: ObjectId) returns (r: Outcome<Review>)
    requires db.Valid()
    requires review.id == db.nextId && RatingInRange(review.rating)
    requires !HasReviewFor(db.reviews, review.requestId)
    modifies db
    ensures db.Valid()
    ensures db.reviews == old(db.reviews) + [review] && db.nextId == old(db.nextId) + 1
    ensures var update := RatingUpdate(old(db.profiles), db.reviews, workerId);
      && (update.Fail? ==> r == Fail(update.error) && db.profiles == old(db.profiles))
      && (update.Ok? ==> r == Ok(review) && db.profiles == update.value)
    ensures db.users == old(db.users) && db.requests == old(db.requests)
    ensures db.jobs == old(db.jobs) && db.payments == old(db.payments)
  {
    var s := db.Snapshot();
    var stored := s.(reviews := s.reviews + [review], nextId := s.nextId + 1);
    InsertReview(s, review);
    var update := RatingUpdate(stored.profiles, stored.reviews, workerId);
    if update.Fail? {
      db.reviews, db.nextId := stored.reviews, stored.nextId;
      assert db.Snapshot() == stored;
      return Fail(update.error);
    }
    RatingUpdateKeepsInvariant(stored, workerId);
    db.reviews, db.profiles, db.nextId := stored.reviews, update.value, stored.nextId;
    assert db.Snapshot() == stored.(profiles := update.value);
    r := Ok(review);
  }

  /** POST /reviews as written: after the checks, the review records the
      caller as customer and the request's worker as both `workerId` and
      `workerProfileId`; a rating outside [1, 5] fails its save. */
  method CreateReview(db: Database, caller: Principal, requestId: ObjectId, rating: Option<real>,
                      comment: Option<string>, now: int) returns (r: Outcome<Review>)
    requires db.Valid()
    modifies db
    ensures db.Valid()
    ensures ReviewChecks(caller, old(db.requests), old(db.reviews), requestId).Fail? ==>
      r == Fail(ReviewChecks(caller, old(db.requests), old(db.reviews), requestId).error)
      && db.Snapshot() == old(db.Snapshot())
    ensures ReviewChecks(caller, old(db.requests), old(db.reviews), requestId).Ok? ==>
      var q := ReviewChecks(caller, old(db.requests), old(db.reviews), requestId).value;
      var built := NewReview(old(db.nextId), requestId, caller.id, q.workerId, q.workerId, rating, comment, now);
      && (built.Fail? ==> r == Fail(built.error) && db.Snapshot() == old(db.Snapshot()))
      && (built.Ok? ==>
           && db.reviews == old(db.reviews) + [built.value] && db.nextId == old(db.nextId) + 1
           && var update := RatingUpdate(old(db.profiles), db.reviews, q.workerId);
           && (update.Fail? ==> r == Fail(update.error) && db.profiles == old(db.profiles))
           && (update.Ok? ==> r == Ok(built.value) && db.profiles == update.value))
    ensures db.users == old(db.users) && db.requests == old(db.requests)
    ensures db.jobs == old(db.jobs) && db.payments == old(db.payments)
  {
    var checked := ReviewChecks(caller, db.requests, db.reviews, requestId);
    if checked.Fail? {
      return Fail(checked.error);
    }
    var q := checked.value;
    // the worker's user id is stored where the profile's id belongs
    var built := NewReview(db.nextId, requestId, caller.id, q.workerId, q.workerId, rating, comment, now);
    if built.Fail? {
      return Fail(built.error);
    }
    r := StoreAndRate(db, built.value, q.workerId);
  }

  /** As written, the new review never enters its worker's recomputation:
      it points at the worker's user id, never a profile's id. */
  lemma NewReviewNotCounted(s: State, k: nat, x: Review)
    requires Invariant(s) && k < |s.profiles|
    requires x.workerProfileId == s.profiles[k].userId
    ensures Recompute(s.reviews + [x], s.profiles[k].id) == Recompute(s.reviews, s.profiles[k].id)
  {
    OwnerIsNotAProfile(s, k, k);
    OtherReviewNotCounted(s.reviews, x, s.profiles[k].id);
  }

  /** The discrepancy: the first review of a worker who has a profile
      (no stored review points at that profile) fails the profile update,
      after the review has been stored. */
  lemma FirstReviewFailsAsWritten(s: State, x: Review)
    requires Invariant(s)
    requires FindProfileOf(s.profiles, x.workerId).Some? && x.workerProfileId == x.workerId
    requires forall y :: y in s.reviews ==> y.workerProfileId != s.profiles[FindProfileOf(s.profiles, x.workerId).value].id
    ensures RatingUpdate(s.profiles, s.reviews + [x], x.workerId) == Fail(ServerError)
  {
    NewReviewNotCounted(s, FindProfileOf(s.profiles, x.workerId).value, x);
  }

  /** The `workerProfileId` the handler evidently means to store: the id of
      the worker's profile, or the worker's user id when there is none. */
  function IntendedProfileId(profiles: seq<WorkerProfile>, workerId: ObjectId): (pid: ObjectId)
    ensures FindProfileOf(profiles, workerId).Some? ==>
      exists p :: p in profiles && p.userId == workerId && pid == p.id
  {
    match FindProfileOf(profiles, workerId)
    case None => workerId
    case Some(k) => profiles[k].id
  }

  /** With the profile's id stored, the recomputation always succeeds for
      a worker who has a profile, counts the new review once more than
      before, and its mean includes the new rating and stays in [1, 5]. */
  lemma IntendedReviewCounted(profiles: seq<WorkerProfile>, reviews: seq<Review>, x: Review)
    requires forall j :: 0 <= j < |reviews| ==> RatingInRange(reviews[j].rating)
    requires RatingInRange(x.rating)
    requires FindProfileOf(profiles, x.workerId).Some?
    requires x.workerProfileId == IntendedProfileId(profiles, x.workerId)
    ensures var k := FindProfileOf(profiles, x.workerId).value;
      var before := ReviewsFor(reviews, profiles[k].id);
      var update := RatingUpdate(profiles, reviews + [x], x.workerId);
      && update.Ok?
      && update.value[k].totalReviews == |before| + 1
      && update.value[k].rating == Mean(Sum(before, RatingOf) + x.rating, |before| + 1)
      && RatingInRange(update.value[k].rating)
  {
    var k := FindProfileOf(profiles, x.workerId).value;
    var pid := profiles[k].id;
    assert x.workerProfileId == pid;
    OwnReviewCounted(reviews, x, pid);
    StoredRatingsInRange(reviews, x);
    var sum := Recompute(reviews + [x], pid).value;
    assert RatingUpdate(profiles, reviews + [x], x.workerId)
        == Ok(profiles[k := profiles[k].(rating := sum.rating, totalReviews := sum.totalReviews)]);
  }

  /** Every rating is in range once an in-range review joins reviews that
      all have one. */
  lemma StoredRatingsInRange(reviews: seq<Review>, x: Review)
    requires forall j :: 0 <= j < |reviews| ==> RatingInRange(reviews[j].rating)
    requires RatingInRange(x.rating)
    ensures forall y :: y in reviews + [x] ==> RatingInRange(y.rating)
  {
    forall y | y in reviews + [x] ensures RatingInRange(y.rating) {
      if y in reviews {
        var i :| 0 <= i < |reviews| && reviews[i] == y;
      }
    }
  }

  /** POST /reviews storing the profile's own id in `workerProfileId`;
      everything else as in `CreateReview`. With this change a valid
      review of a worker with a profile always succeeds. */
  method CreateReviewIntended(db: Database, caller: Principal, requestId: ObjectId, rating: Option<real>,
                              comment: Option<string>, now: int) returns (r: Outcome<Review>)
    requires db.Valid()
    modifies db
    ensures db.Valid()
    ensures ReviewChecks(caller, old(db.requests), old(db.reviews), requestId).Fail? ==>
      r == Fail(ReviewChecks(caller, old(db.requests), old(db.reviews), requestId).error)
      && db.Snapshot() == old(db.Snapshot())
    ensures ReviewChecks(caller, old(db.requests), old(db.reviews), requestId).Ok? ==>
      var q := ReviewChecks(caller, old(db.requests), old(db.reviews), requestId).value;
      var pid := IntendedProfileId(old(db.profiles), q.workerId);
      var built := NewReview(old(db.nextId), requestId, caller.id, q.workerId, pid, rating, comment, now);
      && (built.Fail? ==> r == Fail(built.error) && db.Snapshot() == old(db.Snapshot()))
      && (built.Ok? ==>
           && db.reviews == old(db.reviews) + [built.value] && db.nextId == old(db.nextId) + 1
           && var update := RatingUpdate(old(db.profiles), db.reviews, q.workerId);
           && (update.Fail? ==> r == Fail(update.error) && db.profiles == old(db.profiles))
           && (update.Ok? ==> r == Ok(built.value) && db.profiles == update.value))
    ensures ReviewChecks(caller, old(db.requests), old(db.reviews), requestId).Ok? &&
      rating.Some? && RatingInRange(rating.value) &&
      FindProfileOf(old(db.profiles), ReviewChecks(caller, old(db.requests), old(db.reviews), requestId).value.workerId).Some?
      ==> r.Ok?
    ensures db.users == old(db.users) && db.requests == old(db.requests)
    ensures db.jobs == old(db.jobs) && db.payments == old(db.payments)
  {
    var checked := ReviewChecks(caller, db.requests, db.reviews, requestId);
    if checked.Fail? {
      return Fail(checked.error);
    }
    var q := checked.value;
    var pid := IntendedProfileId(db.profiles, q.workerId);
    var built := NewReview(db.nextId, requestId, caller.id, q.workerId, pid, rating, comment, now);
    if built.Fail? {
      return Fail(built.error);
    }
    if FindProfileOf(db.profiles, q.workerId).Some? {
      IntendedReviewCounted(db.profiles, db.reviews, built.value);
    }
    r := StoreAndRate(db, built.value, q.workerId);
  }
}
