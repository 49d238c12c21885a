/** The service-request routes: creation by customers, the role-filtered
    listing, the single fetch with its access check, and the status
    update. The status update authorizes the caller for the target
    status only: it never reads the current status, so there is no
    transition table, a completed or cancelled request can be moved
    again, and moving to `pending` is open to any caller. */
module RequestRoutes {
  import opened Common
  import opened UserModel
  import opened RequestModel
  import opened Store

  /** POST /requests: only a customer may create; the new request belongs
      to the caller and starts out pending. */
  method CreateRequest(db: Database, caller: Principal, input: RequestInput, now: int)
    returns (r: Outcome<ServiceRequest>)
    requires db.Valid()
    modifies db
    ensures db.Valid()
    ensures caller.role != Customer ==> r == Fail(Forbidden)
    ensures caller.role == Customer ==> r == NewRequest(old(db.nextId), caller.id, input, now)
    ensures r.Ok? ==> r.value.status == Pending && r.value.customerId == caller.id
    ensures r.Ok? ==> db.Snapshot() == old(db.Snapshot()).(
      requests := old(db.requests) + [r.value], nextId := old(db.nextId) + 1)
    ensures r.Fail? ==> db.Snapshot() == old(db.Snapshot())
  {
    if caller.role != Customer {
      return Fail(Forbidden);
    }
    var s := db.Snapshot();
    r := NewRequest(s.nextId, caller.id, input, now);
    if r.Ok? {
      InsertRequest(s, r.value);
      db.requests, db.nextId := s.requests + [r.value], s.nextId + 1;
      assert db.Snapshot() == s.(requests := s.requests + [r.value], nextId := s.nextId + 1);
    }
  }

  /** The `status` query parameter, when given, must name the request's status. */
  predicate StatusFilter(q: ServiceRequest, status: Option<string>) {
    Given(status) ==> StatusName(q.status) == status.value
  }

  /** The filter GET /requests builds from the caller's role. */
  predicate Listed(q: ServiceRequest, caller: Principal, status: Option<string>) {
    && (caller.role == Worker ==> q.workerId == caller.id)
    && (caller.role == Customer ==> q.customerId == caller.id)
    && StatusFilter(q, status)
  }

  /** GET /requests: a worker sees the requests addressed to them, a
      customer the ones they made, every other role all of them; the
      `status` parameter narrows any of these. */
  function ListRequests(requests: seq<ServiceRequest>, caller: Principal, status: Option<string>)
    : (r: seq<ServiceRequest>)
    ensures caller.role == Worker ==>
      forall q :: q in r <==> q in requests && q.workerId == caller.id && StatusFilter(q, status)
    ensures caller.role == Customer ==>
      forall q :: q in r <==> q in requests && q.customerId == caller.id && StatusFilter(q, status)
    ensures caller.role == Business || caller.role == Admin ==>
      forall q :: q in r <==> q in requests && StatusFilter(q, status)
  {
    Filter(requests, (q: ServiceRequest) => Listed(q, caller, status))
  }

  /** GET /requests/:id. 404 for an unknown id. Both parties are populated
      from the users collection, and the access check dereferences the
      populated customer and then, unless the caller is that customer,
      the populated worker: a party that is not a stored user makes that
      dereference throw (a 500). Otherwise only the customer, the worker
      and an admin may read the request. */
  function GetRequest(requests: seq<ServiceRequest>, users: seq<User>, caller: Principal, id: ObjectId)
    : (r: Outcome<ServiceRequest>)
    ensures FindRequest(requests, id).None? <==> r == Fail(NotFound)
    ensures r.Ok? ==> r.value in requests && r.value.id == id
    ensures r.Ok? ==> r.value.customerId == caller.id || r.value.workerId == caller.id || caller.role == Admin
  {
    match FindRequest(requests, id)
    case None => Fail(NotFound)
    case Some(i) =>
      var q := requests[i];
      if FindUser(users, q.customerId).None? then Fail(ServerError)
      else if q.customerId == caller.id then Ok(q)
      else if FindUser(users, q.workerId).None? then Fail(ServerError)
      else if q.workerId != caller.id && caller.role != Admin then Fail(Forbidden)
      else Ok(q)
  }

  /** When both parties are stored users, the fetch succeeds exactly for
      the customer, the worker and admins, and is refused with 403 otherwise. */
  lemma GetRequestAccess(requests: seq<ServiceRequest>, users: seq<User>, caller: Principal, i: nat)
    requires i < |requests| && FindRequest(requests, requests[i].id) == Some(i)
    requires FindUser(users, requests[i].customerId).Some? && FindUser(users, requests[i].workerId).Some?
    ensures var r := GetRequest(requests, users, caller, requests[i].id);
      && (r.Ok? <==> requests[i].customerId == caller.id || requests[i].workerId == caller.id || caller.role == Admin)
      && (r.Fail? ==> r.error == Forbidden)
      && (r.Ok? ==> r.value == requests[i])
  {
  }

  /** A request whose worker id names no stored user cannot be fetched by
      anyone but its customer: not even an admin gets past the 500. */
  lemma GetRequestDanglingWorker(requests: seq<ServiceRequest>, users: seq<User>, caller: Principal, i: nat)
    requires i < |requests| && FindRequest(requests, requests[i].id) == Some(i)
    requires FindUser(users, requests[i].customerId).Some? && FindUser(users, requests[i].workerId).None?
    requires caller.id != requests[i].customerId
    ensures GetRequest(requests, users, caller, requests[i].id) == Fail(ServerError)
  {
  }

  /** The checks of PATCH /requests/:id/status once the request is loaded,
      and the status the save stores: `accepted` and `cancelled` need the
      request's worker, `in_progress` and `completed` its customer or
      worker, `pending` needs no one; a name outside the schema's
      enumeration fails the save. A body without `status` passes both
      checks and the save succeeds with the status unset, which reads
      back as the schema default, pending. */
  function StatusUpdate(q: ServiceRequest, callerId: ObjectId, status: Option<string>): (r: Outcome<RequestStatus>)
    ensures r == Fail(Forbidden) <==>
      && status.Some?
      && (|| ((status.value == "accepted" || status.value == "cancelled") && q.workerId != callerId)
          || ((status.value == "in_progress" || status.value == "completed") && q.customerId != callerId && q.workerId != callerId))
    ensures r.Ok? && status.Some? ==> StatusName(r.value) == status.value
    ensures status.None? ==> r == Ok(Pending)
    ensures r.Fail? && r.error != Forbidden ==> r.error == ServerError && status.Some? && ParseStatus(status.value).None?
  {
    match status
    case None => Ok(Pending)
    case Some(name) =>
      if (name == "accepted" || name == "cancelled") && q.workerId != callerId then Fail(Forbidden)
      else if (name == "in_progress" || name == "completed") && q.customerId != callerId && q.workerId != callerId then Fail(Forbidden)
      else match ParseStatus(name)
        case None => Fail(ServerError)
        case Some(s) => Ok(s)
  }

  /** The outcome never depends on the stored status. */
  lemma StatusUpdateIgnoresCurrentStatus(q: ServiceRequest, callerId: ObjectId, status: Option<string>, current: RequestStatus)
    ensures StatusUpdate(q.(status := current), callerId, status) == StatusUpdate(q, callerId, status)
  {
  }

  /** Anyone may move any request, even a completed one, back to pending. */
  lemma CompletedRequestReopened(q: ServiceRequest, callerId: ObjectId)
    requires q.status == Completed
    ensures StatusUpdate(q, callerId, Some("pending")) == Ok(Pending)
  {
  }

  /** A cancelled request can be completed again by either party. */
  lemma CancelledRequestCompleted(q: ServiceRequest)
    requires q.status == Cancelled
    ensures StatusUpdate(q, q.customerId, Some("completed")) == Ok(Completed)
    ensures StatusUpdate(q, q.workerId, Some("completed")) == Ok(Completed)
  {
  }

  /** A customer who is not also the worker can never accept. */
  lemma CustomerCannotAccept(q: ServiceRequest)
    requires q.customerId != q.workerId
    ensures StatusUpdate(q, q.customerId, Some("accepted")) == Fail(Forbidden)
  {
  }

  /** PATCH /requests/:id/status: 404 for an unknown id; otherwise the
      checks of `StatusUpdate`, and on success the stored request gets
      the new status and `updatedAt`, nothing else changes. */
  method UpdateStatus(db: Database, caller: Principal, id: ObjectId, status: Option<string>, now: int)
    returns (r: Outcome<ServiceRequest>)
    requires db.Valid()
    modifies db
    ensures db.Valid()
    ensures FindRequest(old(db.requests), id).None? ==> r == Fail(NotFound)
    ensures FindRequest(old(db.requests), id).Some? ==>
      var i := FindRequest(old(db.requests), id).value;
      var q := old(db.requests)[i];
      match StatusUpdate(q, caller.id, status)
      case Fail(e) => r == Fail(e)
      case Ok(s) =>
        && r == Ok(q.(status := s, updatedAt := now))
        && db.Snapshot() == old(db.Snapshot()).(requests := old(db.requests)[i := r.value])
    ensures r.Fail? ==> db.Snapshot() == old(db.Snapshot())
  {
    var found := FindRequest(db.requests, id);
    if found.None? {
      return Fail(NotFound);
    }
    var i := found.value;
    var q := db.requests[i];
    if status == Some("accepted") || status == Some("cancelled") {
      if q.workerId != caller.id {
        return Fail(Forbidden);
      }
    }
    if status == Some("in_progress") || status == Some("completed") {
      if q.customerId != caller.id && q.workerId != caller.id {
        return Fail(Forbidden);
      }
    }
    var parsed := if status.None? then Some(Pending) else ParseStatus(status.value);
    if parsed.None? {
      return Fail(ServerError);
    }
    var updated := q.(status := parsed.value, updatedAt := now);
    var before := db.Snapshot();
    ReplaceRequest(before, i, updated);
    db.requests := before.requests[i := updated];
    assert db.Snapshot() == before.(requests := before.requests[i := updated]);
    r := Ok(updated);
  }
}
