/** The document store the route handlers read and write, in place of
    MongoDB: one sequence per collection in natural (insertion) order and
    a counter that issues fresh ObjectIds. */
module Store {
  import opened Common
  import opened UserModel
  import opened RequestModel
  import opened ReviewModel
  import opened WorkerProfileModel
  import opened JobPostModel
  import opened PaymentModel

  /** A value copy of every collection. */
  datatype State = State(
    users: seq<User>,
    profiles: seq<WorkerProfile>,
    requests: seq<ServiceRequest>,
    reviews: seq<Review>,
    jobs: seq<JobPost>,
    payments: seq<Payment>,
    nextId: ObjectId)

  function UserKey(u: User): ObjectId { u.id }
  function ProfileKey(p: WorkerProfile): ObjectId { p.id }
  function RequestKey(q: ServiceRequest): ObjectId { q.id }
  function ReviewKey(r: Review): ObjectId { r.id }
  function JobKey(j: JobPost): ObjectId { j.id }

  /** The ids of a collection are pairwise distinct and were all issued
      before `next`. */
  ghost predicate KeysOk<T>(s: seq<T>, key: T -> ObjectId, next: nat) {
    && (forall i :: 0 <= i < |s| ==> key(s[i]) < next)
    && (forall i, j :: 0 <= i < j < |s| ==> key(s[i]) != key(s[j]))
  }

  lemma KeysOkGrow<T>(s: seq<T>, key: T -> ObjectId, next: nat)
    requires KeysOk(s, key, next)
    ensures KeysOk(s, key, next + 1)
  {
  }

  lemma KeysOkAppend<T>(s: seq<T>, key: T -> ObjectId, next: nat, x: T)
    requires KeysOk(s, key, next) && key(x) == next
    ensures KeysOk(s + [x], key, next + 1)
  {
  }

  lemma KeysOkReplace<T>(s: seq<T>, key: T -> ObjectId, next: nat, i: nat, x: T)
    requires KeysOk(s, key, next) && i < |s| && key(x) == key(s[i])
    ensures KeysOk(s[i := x], key, next)
  {
  }

  predicate UserExists(users: seq<User>, id: ObjectId) {
    exists u :: u in users && u.id == id
  }

  /** At most one profile per user: the schema's `unique` index on `userId`. */
  ghost predicate OneProfilePerUser(profiles: seq<WorkerProfile>) {
    forall i, j :: 0 <= i < j < |profiles| ==> profiles[i].userId != profiles[j].userId
  }

  /** At most one review per service request. */
  ghost predicate OneReviewPerRequest(reviews: seq<Review>) {
    forall i, j :: 0 <= i < j < |reviews| ==> reviews[i].requestId != reviews[j].requestId
  }

  /** What the stored collections satisfy between handler calls. */
  ghost predicate Invariant(s: State) {
    && KeysOk(s.users, UserKey, s.nextId)
    && KeysOk(s.profiles, ProfileKey, s.nextId)
    && KeysOk(s.requests, RequestKey, s.nextId)
    && KeysOk(s.reviews, ReviewKey, s.nextId)
    && KeysOk(s.jobs, JobKey, s.nextId)
    // ObjectIds are unique across collections; the model needs this only
    // between users and profiles.
    && (forall i, j :: 0 <= i < |s.users| && 0 <= j < |s.profiles| ==> s.users[i].id != s.profiles[j].id)
    // every profile belongs to a registered user
    && (forall j :: 0 <= j < |s.profiles| ==> UserExists(s.users, s.profiles[j].userId))
    && OneProfilePerUser(s.profiles)
    && OneReviewPerRequest(s.reviews)
    && (forall j :: 0 <= j < |s.profiles| ==> ProfileValid(s.profiles[j]))
    && (forall j :: 0 <= j < |s.reviews| ==> RatingInRange(s.reviews[j].rating))
    && (forall j :: 0 <= j < |s.jobs| ==> JobValid(s.jobs[j]))
  }

  /** Issuing an id keeps the invariant. */
  lemma InvariantGrow(s: State)
    requires Invariant(s)
    ensures Invariant(s.(nextId := s.nextId + 1))
  {
    KeysOkGrow(s.users, UserKey, s.nextId);
    KeysOkGrow(s.profiles, ProfileKey, s.nextId);
    KeysOkGrow(s.requests, RequestKey, s.nextId);
    KeysOkGrow(s.reviews, ReviewKey, s.nextId);
    KeysOkGrow(s.jobs, JobKey, s.nextId);
  }

  /** A profile's owner is a user, so its id is never a profile id; in
      particular never the profile's own id. */
  lemma {:induction false} OwnerIsNotAProfile(s: State, j: nat, k: nat)
    requires Invariant(s) && j < |s.profiles| && k < |s.profiles|
    ensures s.profiles[j].userId != s.profiles[k].id
  {
    assert UserExists(s.users, s.profiles[j].userId);
    var u :| u in s.users && u.id == s.profiles[j].userId;
    var i :| 0 <= i < |s.users| && s.users[i] == u;
    assert s.users[i].id != s.profiles[k].id;
  }

  // Each write a handler makes keeps the invariant, given what the
  // handler has checked before it.

  lemma InsertUser(s: State, u: User)
    requires Invariant(s) && u.id == s.nextId
    ensures Invariant(s.(users := s.users + [u], nextId := s.nextId + 1))
  {
    InvariantGrow(s);
    KeysOkAppend(s.users, UserKey, s.nextId, u);
    var t := s.(users := s.users + [u], nextId := s.nextId + 1);
    forall j | 0 <= j < |t.profiles| ensures UserExists(t.users, t.profiles[j].userId) {
      assert UserExists(s.users, s.profiles[j].userId);
      var w :| w in s.users && w.id == s.profiles[j].userId;
      assert w in t.users;
    }
  }

  lemma InsertProfile(s: State, p: WorkerProfile)
    requires Invariant(s) && p.id == s.nextId && ProfileValid(p)
    requires UserExists(s.users, p.userId)
    requires forall q :: q in s.profiles ==> q.userId != p.userId
    ensures Invariant(s.(profiles := s.profiles + [p], nextId := s.nextId + 1))
  {
    InvariantGrow(s);
    KeysOkAppend(s.profiles, ProfileKey, s.nextId, p);
    var t := s.(profiles := s.profiles + [p], nextId := s.nextId + 1);
    forall i, j | 0 <= i < j < |t.profiles| ensures t.profiles[i].userId != t.profiles[j].userId {
      if j == |s.profiles| {
        assert s.profiles[i] in s.profiles;
      }
    }
  }

  lemma InsertRequest(s: State, q: ServiceRequest)
    requires Invariant(s) && q.id == s.nextId
    ensures Invariant(s.(requests := s.requests + [q], nextId := s.nextId + 1))
  {
    InvariantGrow(s);
    KeysOkAppend(s.requests, RequestKey, s.nextId, q);
  }

  lemma InsertReview(s: State, r: Review)
    requires Invariant(s) && r.id == s.nextId && RatingInRange(r.rating)
    requires !HasReviewFor(s.reviews, r.requestId)
    ensures Invariant(s.(reviews := s.reviews + [r], nextId := s.nextId + 1))
  {
    InvariantGrow(s);
    KeysOkAppend(s.reviews, ReviewKey, s.nextId, r);
    var t := s.(reviews := s.reviews + [r], nextId := s.nextId + 1);
    forall i, j | 0 <= i < j < |t.reviews| ensures t.reviews[i].requestId != t.reviews[j].requestId {
      if j == |s.reviews| {
        assert s.reviews[i] in s.reviews;
      }
    }
  }

  lemma InsertJob(s: State, j: JobPost)
    requires Invariant(s) && j.id == s.nextId && JobValid(j)
    ensures Invariant(s.(jobs := s.jobs + [j], nextId := s.nextId + 1))
  {
    InvariantGrow(s);
    KeysOkAppend(s.jobs, JobKey, s.nextId, j);
  }

  lemma ReplaceUser(s: State, k: nat, u: User)
    requires Invariant(s) && k < |s.users| && u.id == s.users[k].id
    ensures Invariant(s.(users := s.users[k := u]))
  {
    KeysOkReplace(s.users, UserKey, s.nextId, k, u);
    var t := s.(users := s.users[k := u]);
    forall j | 0 <= j < |t.profiles| ensures UserExists(t.users, t.profiles[j].userId) {
      assert UserExists(s.users, s.profiles[j].userId);
      var w :| w in s.users && w.id == s.profiles[j].userId;
      var i :| 0 <= i < |s.users| && s.users[i] == w;
      assert t.users[i].id == w.id;
    }
  }

  lemma ReplaceProfile(s: State, k: nat, p: WorkerProfile)
    requires Invariant(s) && k < |s.profiles| && ProfileValid(p)
    requires p.id == s.profiles[k].id && p.userId == s.profiles[k].userId
    ensures Invariant(s.(profiles := s.profiles[k := p]))
  {
    KeysOkReplace(s.profiles, ProfileKey, s.nextId, k, p);
  }

  lemma ReplaceRequest(s: State, k: nat, q: ServiceRequest)
    requires Invariant(s) && k < |s.requests| && q.id == s.requests[k].id
    ensures Invariant(s.(requests := s.requests[k := q]))
  {
    KeysOkReplace(s.requests, RequestKey, s.nextId, k, q);
  }

  lemma ReplaceJob(s: State, k: nat, j: JobPost)
    requires Invariant(s) && k < |s.jobs| && j.id == s.jobs[k].id && JobValid(j)
    ensures Invariant(s.(jobs := s.jobs[k := j]))
  {
    KeysOkReplace(s.jobs, JobKey, s.nextId, k, j);
  }

  class Database {
    var users: seq<User>
    var profiles: seq<WorkerProfile>
    var requests: seq<ServiceRequest>
    var reviews: seq<Review>
    var jobs: seq<JobPost>
    var payments: seq<Payment>
    var nextId: ObjectId

    function Snapshot(): State
      reads this
    {
      State(users, profiles, requests, reviews, jobs, payments, nextId)
    }

    ghost predicate Valid()
      reads this
    {
      Invariant(Snapshot())
    }

    /** An empty database; payments are written by the payment flow,
        which is not part of this model, so they are given. */
    constructor (payments: seq<Payment>)
      ensures Valid()
      ensures Snapshot() == State([], [], [], [], [], payments, 0)
    {
      users, profiles, requests, reviews, jobs := [], [], [], [], [];
      this.payments := payments;
      nextId := 0;
    }
  }
}
