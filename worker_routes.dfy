/** The worker routes: the caller's own profile, the embedded services
    list, the dashboard statistics, the public search with its
    pagination, and the two ways a profile is written. Both profile
    writes copy the whole request body onto the document, so a worker can
    set `verified`, `rating` and `totalReviews` on their own profile. */
module WorkerRoutes {
  import opened Common
  import opened RequestModel
  import opened WorkerProfileModel
  import opened Store

  /** The guard of /me and the three service routes: 403 unless the caller
      is a worker, 404 when the caller has no profile; otherwise the
      position of the caller's profile. */
  function MyProfile(profiles: seq<WorkerProfile>, caller: Principal): (r: Outcome<nat>)
    ensures caller.role != Worker ==> r == Fail(Forbidden)
    ensures caller.role == Worker ==>
      (r == Fail(NotFound) <==> forall p :: p in profiles ==> p.userId != caller.id)
    ensures r.Fail? ==> r.error == Forbidden || r.error == NotFound
    ensures r.Ok? ==> r.value < |profiles| && profiles[r.value].userId == caller.id
  {
    if caller.role != Worker then Fail(Forbidden)
    else match FindProfileOf(profiles, caller.id)
      case None => Fail(NotFound)
      case Some(k) => Ok(k)
  }

  /** GET /workers/me: the caller's own profile. */
  function GetMyProfile(profiles: seq<WorkerProfile>, caller: Principal): (r: Outcome<WorkerProfile>)
    ensures r.Ok? <==> caller.role == Worker && exists p :: p in profiles && p.userId == caller.id
    ensures r.Ok? ==> r.value in profiles && r.value.userId == caller.id
    ensures r.Fail? ==> r.error == (if caller.role != Worker then Forbidden else NotFound)
  {
    match MyProfile(profiles, caller)
    case Fail(e) => Fail(e)
    case Ok(k) => Ok(profiles[k])
  }

  /** Every service of the list passes validation. */
  predicate ServicesValid(services: seq<Service>) {
    forall i :: 0 <= i < |services| ==> ServiceValid(services[i])
  }

  /** POST /workers/services: the new entry, with a fresh subdocument id,
      is pushed at the end of the caller's services and the profile saved;
      the response is the new list. */
  method AddService(db: Database, caller: Principal, f: ServiceFields) returns (r: Outcome<seq<Service>>)
    requires db.Valid()
    modifies db
    ensures db.Valid()
    ensures MyProfile(old(db.profiles), caller).Fail? ==>
      r == Fail(MyProfile(old(db.profiles), caller).error) && db.Snapshot() == old(db.Snapshot())
    ensures MyProfile(old(db.profiles), caller).Ok? ==>
      var k := MyProfile(old(db.profiles), caller).value;
      var p := old(db.profiles)[k];
      match NewService(old(db.nextId), f)
      case Fail(e) => r == Fail(e) && db.Snapshot() == old(db.Snapshot())
      case Ok(s) =>
        && r == Ok(p.services + [s])
        && db.Snapshot() == old(db.Snapshot()).(
             profiles := old(db.profiles)[k := p.(services := p.services + [s])],
             nextId := old(db.nextId) + 1)
  {
    var mine := MyProfile(db.profiles, caller);
    if mine.Fail? {
      return Fail(mine.error);
    }
    var k := mine.value;
    var p := db.profiles[k];
    var built := NewService(db.nextId, f);
    if built.Fail? {
      return Fail(built.error);
    }
    var services := p.services + [built.value];
    var updated := p.(services := services);
    var s := db.Snapshot();
    PushServiceKeepsInvariant(s, k, built.value);
    db.profiles, db.nextId := s.profiles[k := updated], s.nextId + 1;
    assert db.Snapshot() == s.(profiles := s.profiles[k := updated], nextId := s.nextId + 1);
    r := Ok(services);
  }

  /** Pushing a valid service onto a stored profile while drawing a fresh
      id keeps the store's invariant. */
  lemma PushServiceKeepsInvariant(s: State, k: nat, x: Service)
    requires Invariant(s) && k < |s.profiles| && ServiceValid(x)
    ensures var p := s.profiles[k];
      Invariant(s.(profiles := s.profiles[k := p.(services := p.services + [x])], nextId := s.nextId + 1))
  {
    var p := s.profiles[k];
    var updated := p.(services := p.services + [x]);
    assert ServicesValid(updated.services) by {
      assert ServicesValid(p.services);
    }
    ReplaceProfile(s, k, updated);
    InvariantGrow(s.(profiles := s.profiles[k := updated]));
  }

  /** PUT /workers/services/:serviceId: 404 for an id that is not among the
      caller's services; otherwise the given fields replace that entry's,
      nothing else in the list changes. */
  method UpdateService(db: Database, caller: Principal, serviceId: ObjectId, f: ServiceFields)
    returns (r: Outcome<seq<Service>>)
    requires db.Valid()
    modifies db
    ensures db.Valid()
    ensures MyProfile(old(db.profiles), caller).Fail? ==>
      r == Fail(MyProfile(old(db.profiles), caller).error) && db.Snapshot() == old(db.Snapshot())
    ensures MyProfile(old(db.profiles), caller).Ok? ==>
      var k := MyProfile(old(db.profiles), caller).value;
      var p := old(db.profiles)[k];
      match FindService(p.services, serviceId)
      case None => r == Fail(NotFound) && db.Snapshot() == old(db.Snapshot())
      case Some(j) =>
        match AssignService(p.services[j], f)
        case Fail(e) => r == Fail(e) && db.Snapshot() == old(db.Snapshot())
        case Ok(s) =>
          && r == Ok(p.services[j := s])
          && db.Snapshot() == old(db.Snapshot()).(profiles := old(db.profiles)[k := p.(services := r.value)])
  {
    var mine := MyProfile(db.profiles, caller);
    if mine.Fail? {
      return Fail(mine.error);
    }
    var k := mine.value;
    var p := db.profiles[k];
    var found := FindService(p.services, serviceId);
    if found.None? {
      return Fail(NotFound);
    }
    var j := found.value;
    var edited := AssignService(p.services[j], f);
    if edited.Fail? {
      return Fail(edited.error);
    }
    var services := p.services[j := edited.value];
    assert ServicesValid(services) by {
      assert ServicesValid(p.services);
    }
    var updated := p.(services := services);
    var before := db.Snapshot();
    ReplaceProfile(before, k, updated);
    db.profiles := before.profiles[k := updated];
    assert db.Snapshot() == before.(profiles := before.profiles[k := updated]);
    r := Ok(services);
  }

  /** DELETE /workers/services/:serviceId: 404 for an id that is not among
      the caller's services; otherwise that entry leaves the list and the
      others keep their order. */
  method DeleteService(db: Database, caller: Principal, serviceId: ObjectId) returns (r: Outcome<seq<Service>>)
    requires db.Valid()
    modifies db
    ensures db.Valid()
    ensures MyProfile(old(db.profiles), caller).Fail? ==>
      r == Fail(MyProfile(old(db.profiles), caller).error) && db.Snapshot() == old(db.Snapshot())
    ensures MyProfile(old(db.profiles), caller).Ok? ==>
      var k := MyProfile(old(db.profiles), caller).value;
      var p := old(db.profiles)[k];
      match FindService(p.services, serviceId)
      case None => r == Fail(NotFound) && db.Snapshot() == old(db.Snapshot())
      case Some(j) =>
        && r == Ok(RemoveAt(p.services, j))
        && db.Snapshot() == old(db.Snapshot()).(profiles := old(db.profiles)[k := p.(services := r.value)])
  {
    var mine := MyProfile(db.profiles, caller);
    if mine.Fail? {
      return Fail(mine.error);
    }
    var k := mine.value;
    var p := db.profiles[k];
    var found := FindService(p.services, serviceId);
    if found.None? {
      return Fail(NotFound);
    }
    var services := RemoveAt(p.services, found.value);
    assert ServicesValid(services) by {
      assert ServicesValid(p.services);
    }
    var updated := p.(services := services);
    var before := db.Snapshot();
    ReplaceProfile(before, k, updated);
    db.profiles := before.profiles[k := updated];
    assert db.Snapshot() == before.(profiles := before.profiles[k := updated]);
    r := Ok(services);
  }

  /** Removing the entry just pushed gives back the list as it was: a
      delete undoes an add. */
  lemma DeleteUndoesAdd(services: seq<Service>, s: Service)
    requires forall x :: x in services ==> x.id != s.id
    ensures FindService(services + [s], s.id) == Some(|services|)
    ensures RemoveAt(services + [s], |services|) == services
  {
    assert (services + [s])[|services|] == s;
  }

  /** The dashboard statistics of a worker. */
  datatype Stats = Stats(
    totalRequests: nat,
    pending: nat,
    accepted: nat,
    completed: nat,
    totalEarnings: real,
    rating: real,
    totalReviews: int)

  function WithStatus(requests: seq<ServiceRequest>, s: RequestStatus): (r: seq<ServiceRequest>)
    ensures forall q :: q in r <==> q in requests && q.status == s
  {
    Filter(requests, (q: ServiceRequest) => q.status == s)
  }

  function PriceOf(q: ServiceRequest): real {
    q.price
  }

  /** The requests addressed to a worker. */
  function AddressedTo(requests: seq<ServiceRequest>, workerId: ObjectId): (r: seq<ServiceRequest>)
    ensures forall q :: q in r <==> q in requests && q.workerId == workerId
  {
    Filter(requests, (q: ServiceRequest) => q.workerId == workerId)
  }

  /** GET /workers/dashboard/stats: 404 when the caller has no profile
      (any role passes); otherwise the counts of the requests addressed to
      the caller, by status, the sum of the prices of the completed ones,
      and the profile's rating and review count. */
  function DashboardStats(profiles: seq<WorkerProfile>, requests: seq<ServiceRequest>, caller: Principal)
    : (r: Outcome<Stats>)
    ensures r.Fail? <==> forall p :: p in profiles ==> p.userId != caller.id
    ensures r.Fail? ==> r.error == NotFound
    ensures r.Ok? ==>
      var mine := AddressedTo(requests, caller.id);
      && r.value.totalRequests == |mine|
      && r.value.pending == |WithStatus(mine, Pending)|
      && r.value.accepted == |WithStatus(mine, Accepted)|
      && r.value.completed == |WithStatus(mine, Completed)|
      && r.value.totalEarnings == Sum(WithStatus(mine, Completed), PriceOf)
      && exists p :: p in profiles && p.userId == caller.id
           && r.value.rating == p.rating && r.value.totalReviews == p.totalReviews
  {
    match FindProfileOf(profiles, caller.id)
    case None => Fail(NotFound)
    case Some(k) =>
      var mine := AddressedTo(requests, caller.id);
      var completed := WithStatus(mine, Completed);
      Ok(Stats(
        |mine|, |WithStatus(mine, Pending)|, |WithStatus(mine, Accepted)|, |completed|,
        Sum(completed, PriceOf), profiles[k].rating, profiles[k].totalReviews))
  }

  /** The three status counts never exceed the number of requests. */
  lemma {:induction false} StatusCountsBounded(requests: seq<ServiceRequest>)
    ensures |WithStatus(requests, Pending)| + |WithStatus(requests, Accepted)| + |WithStatus(requests, Completed)|
            <= |requests|
  {
    if requests != [] {
      StatusCountsBounded(requests[1..]);
    }
  }

  /** Every dashboard's counts are consistent with its total. */
  lemma DashboardCountsBounded(profiles: seq<WorkerProfile>, requests: seq<ServiceRequest>, caller: Principal)
    requires DashboardStats(profiles, requests, caller).Ok?
    ensures var s := DashboardStats(profiles, requests, caller).value;
      s.pending + s.accepted + s.completed <= s.totalRequests
  {
    StatusCountsBounded(AddressedTo(requests, caller.id));
  }

  /** Earnings of non-negative prices are non-negative. */
  lemma {:induction false} EarningsNonNegative(requests: seq<ServiceRequest>)
    requires forall q :: q in requests ==> q.price >= 0.0
    ensures Sum(requests, PriceOf) >= 0.0
  {
    if requests != [] {
      assert requests[0] in requests;
      forall q | q in requests[1..] ensures q.price >= 0.0 {
        assert q in requests;
      }
      EarningsNonNegative(requests[1..]);
    }
  }

  /** The query parameters of GET /workers. A parameter that is absent or
      empty is `None`, except `verified`, which filters whenever it is
      present; numeric parameters are given already converted. `limit`
      defaults to 20 and `skip` to 0. */
  datatype SearchQuery = SearchQuery(
    category: Option<string>,
    listingType: Option<string>,
    minPrice: Option<real>,
    maxPrice: Option<real>,
    verified: Option<string>,
    minRating: Option<real>,
    availability: Option<string>,
    search: Option<string>,
    limit: Option<nat>,
    skip: Option<nat>)

  /** The filter built from the query. `regex(pattern, text)` is a
      case-insensitive regular-expression match, which is not part of this
      model; a text search matches the display name, any skill, or the
      description. */
  predicate Matches(p: WorkerProfile, q: SearchQuery, regex: (string, string) -> bool) {
    && (Given(q.category) ==> CategoryName(p.category) == q.category.value)
    && (Given(q.listingType) ==> ListingTypeName(p.listingType) == q.listingType.value)
    && (q.verified.Some? ==> p.verified == (q.verified.value == "true"))
    && (Given(q.availability) ==> AvailabilityName(p.availability) == q.availability.value)
    && (q.minPrice.Some? ==> p.price >= q.minPrice.value)
    && (q.maxPrice.Some? ==> p.price <= q.maxPrice.value)
    && (q.minRating.Some? ==> p.rating >= q.minRating.value)
    && (Given(q.search) ==>
         || regex(q.search.value, p.displayName)
         || (exists i :: 0 <= i < |p.skills| && regex(q.search.value, p.skills[i]))
         || (p.description.Some? && regex(q.search.value, p.description.value)))
  }

  /** The response of GET /workers. */
  datatype SearchPage = SearchPage(workers: seq<WorkerProfile>, total: nat)

  /** The profiles that match, in stored order. */
  function Matching(profiles: seq<WorkerProfile>, q: SearchQuery, regex: (string, string) -> bool)
    : (r: seq<WorkerProfile>)
    ensures forall p :: p in r <==> p in profiles && Matches(p, q, regex)
  {
    Filter(profiles, (p: WorkerProfile) => Matches(p, q, regex))
  }

  /** The query's page: skip the first `skip` matches, then keep at most
      `limit` (a limit of 0 keeps all); `total` counts every match. */
  function SearchWorkers(profiles: seq<WorkerProfile>, q: SearchQuery, regex: (string, string) -> bool)
    : (r: SearchPage)
    ensures r.total == |Matching(profiles, q, regex)|
    ensures forall p :: p in r.workers ==> p in profiles && Matches(p, q, regex)
    ensures var from := GetOr(q.skip, 0);
      var limit := GetOr(q.limit, 20);
      var all := Matching(profiles, q, regex);
      && (from >= |all| ==> r.workers == [])
      && (from < |all| ==>
           && |r.workers| == (if limit == 0 || |all| - from < limit then |all| - from else limit)
           && r.workers == all[from..from + |r.workers|])
  {
    var all := Matching(profiles, q, regex);
    SearchPage(Page(all, GetOr(q.skip, 0), GetOr(q.limit, 20)), |all|)
  }

  /** `skip(from)` then `limit(limit)` on a result list; a limit of 0
      keeps everything after the skipped part. */
  function Page<T>(all: seq<T>, from: nat, limit: nat): seq<T> {
    var rest := if from < |all| then all[from..] else [];
    if limit == 0 then rest else Take(rest, limit)
  }

  /** Two consecutive pages of one size make up the page of twice the size. */
  lemma PageTile<T>(all: seq<T>, from: nat, size: nat)
    requires size > 0
    ensures Page(all, from, size) + Page(all, from + size, size) == Page(all, from, 2 * size)
  {
    if from + size < |all| {
      var hi := if |all| < from + 2 * size then |all| else from + 2 * size;
      assert Page(all, from, size) == all[from..from + size];
      assert Page(all, from + size, size) == all[from + size..hi];
      assert Page(all, from, 2 * size) == all[from..hi];
    }
  }

  /** `skip` and `limit` choose the page, not the matches. */
  lemma {:induction false} MatchingIgnoresPaging(profiles: seq<WorkerProfile>, q: SearchQuery,
                                                regex: (string, string) -> bool, skip: Option<nat>, limit: Option<nat>)
    ensures Matching(profiles, q.(skip := skip, limit := limit), regex) == Matching(profiles, q, regex)
  {
    if profiles != [] {
      MatchingIgnoresPaging(profiles[1..], q, regex, skip, limit);
    }
  }

  /** Two consecutive pages of the same size are the double-size page:
      paging through the results skips and repeats nothing. */
  lemma PagesTile(profiles: seq<WorkerProfile>, q: SearchQuery, regex: (string, string) -> bool, from: nat, size: nat)
    requires size > 0
    ensures SearchWorkers(profiles, q.(skip := Some(from), limit := Some(size)), regex).workers
          + SearchWorkers(profiles, q.(skip := Some(from + size), limit := Some(size)), regex).workers
         == SearchWorkers(profiles, q.(skip := Some(from), limit := Some(2 * size)), regex).workers
  {
    var all := Matching(profiles, q, regex);
    MatchingIgnoresPaging(profiles, q, regex, Some(from), Some(size));
    assert SearchWorkers(profiles, q.(skip := Some(from), limit := Some(size)), regex).workers
        == Page(all, from, size);
    MatchingIgnoresPaging(profiles, q, regex, Some(from + size), Some(size));
    assert SearchWorkers(profiles, q.(skip := Some(from + size), limit := Some(size)), regex).workers
        == Page(all, from + size, size);
    MatchingIgnoresPaging(profiles, q, regex, Some(from), Some(2 * size));
    assert SearchWorkers(profiles, q.(skip := Some(from), limit := Some(2 * size)), regex).workers
        == Page(all, from, 2 * size);
    PageTile(all, from, size);
  }

  /** `verified=false` selects exactly the unverified matches of the other
      filters, and any value other than "true" behaves the same. */
  lemma VerifiedFilterIsStringEquality(p: WorkerProfile, q: SearchQuery, regex: (string, string) -> bool, v: string)
    requires v != "true"
    ensures Matches(p, q.(verified := Some(v)), regex) <==> !p.verified && Matches(p, q.(verified := None), regex)
  {
  }

  /** POST /workers: 403 unless the caller is a worker; a caller who has a
      profile gets the body's fields copied onto it, anyone else a new
      profile built from the body. */
  method UpsertProfile(db: Database, caller: Principal, f: ProfileFields) returns (r: Outcome<WorkerProfile>)
    requires db.Valid() && UserExists(db.users, caller.id)
    modifies db
    ensures db.Valid()
    ensures caller.role != Worker ==> r == Fail(Forbidden) && db.Snapshot() == old(db.Snapshot())
    ensures caller.role == Worker && FindProfileOf(old(db.profiles), caller.id).Some? ==>
      var k := FindProfileOf(old(db.profiles), caller.id).value;
      && r == AssignProfile(old(db.profiles)[k], f)
      && (r.Ok? ==> db.Snapshot() == old(db.Snapshot()).(profiles := old(db.profiles)[k := r.value]))
    ensures caller.role == Worker && FindProfileOf(old(db.profiles), caller.id).None? ==>
      && r == NewProfile(old(db.nextId), caller.id, f)
      && (r.Ok? ==> db.Snapshot() == old(db.Snapshot()).(
            profiles := old(db.profiles) + [r.value], nextId := old(db.nextId) + 1))
    ensures r.Fail? ==> db.Snapshot() == old(db.Snapshot())
    ensures r.Ok? ==> r.value.userId == caller.id
  {
    if caller.role != Worker {
      return Fail(Forbidden);
    }
    var s := db.Snapshot();
    var found := FindProfileOf(s.profiles, caller.id);
    if found.Some? {
      var k := found.value;
      r := AssignProfile(s.profiles[k], f);
      if r.Ok? {
        ReplaceProfile(s, k, r.value);
        db.profiles := s.profiles[k := r.value];
        assert db.Snapshot() == s.(profiles := s.profiles[k := r.value]);
      }
    } else {
      r := NewProfile(s.nextId, caller.id, f);
      if r.Ok? {
        InsertProfile(s, r.value);
        db.profiles, db.nextId := s.profiles + [r.value], s.nextId + 1;
        assert db.Snapshot() == s.(profiles := s.profiles + [r.value], nextId := s.nextId + 1);
      }
    }
  }

  /** A second POST /workers edits the profile the first one created: a
      worker never gets two profiles. */
  lemma UpsertKeepsOneProfile(s: State, k: nat)
    requires Invariant(s) && k < |s.profiles|
    ensures FindProfileOf(s.profiles, s.profiles[k].userId) == Some(k)
  {
    assert s.profiles[k] in s.profiles;
  }

  /** PUT /workers/:id: 404 for an unknown profile, 403 when the caller
      does not own it (the role is not checked); otherwise the body's
      fields are copied onto it. */
  method UpdateProfile(db: Database, caller: Principal, id: ObjectId, f: ProfileFields)
    returns (r: Outcome<WorkerProfile>)
    requires db.Valid()
    modifies db
    ensures db.Valid()
    ensures FindProfile(old(db.profiles), id).None? ==> r == Fail(NotFound)
    ensures FindProfile(old(db.profiles), id).Some? ==>
      var k := FindProfile(old(db.profiles), id).value;
      && (old(db.profiles)[k].userId != caller.id ==> r == Fail(Forbidden))
      && (old(db.profiles)[k].userId == caller.id ==> r == AssignProfile(old(db.profiles)[k], f))
      && (r.Ok? ==> db.Snapshot() == old(db.Snapshot()).(profiles := old(db.profiles)[k := r.value]))
    ensures r.Fail? ==> db.Snapshot() == old(db.Snapshot())
    ensures r.Ok? ==> r.value.id == id && r.value.userId == caller.id
  {
    var found := FindProfile(db.profiles, id);
    if found.None? {
      return Fail(NotFound);
    }
    var k := found.value;
    if db.profiles[k].userId != caller.id {
      return Fail(Forbidden);
    }
    r := AssignProfile(db.profiles[k], f);
    if r.Ok? {
      var before := db.Snapshot();
      ReplaceProfile(before, k, r.value);
      db.profiles := before.profiles[k := r.value];
      assert db.Snapshot() == before.(profiles := before.profiles[k := r.value]);
    }
  }

  /** A body that carries only these fields. */
  function OnlyVerification(verified: bool, rating: real, totalReviews: int): ProfileFields {
    ProfileFields(None, None, None, None, None, None, None, Some(verified), Some(rating), Some(totalReviews), None, None)
  }

  /** The owner of a profile can mark it verified and give it any rating
      and review count: the profile writes do not protect the fields the
      admin and the review flow maintain. */
  lemma OwnerSetsVerificationFields(p: WorkerProfile, rating: real, totalReviews: int)
    requires ProfileValid(p)
    ensures var r := AssignProfile(p, OnlyVerification(true, rating, totalReviews));
      r.Ok? && r.value.verified && r.value.rating == rating && r.value.totalReviews == totalReviews
  {
  }
}
