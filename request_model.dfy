/** The service-request schema: its status enumeration, required fields
    and defaults, and what saving a new document accepts. */
module RequestModel {
  import opened Common

  datatype RequestStatus = Pending | Accepted | InProgress | Completed | Cancelled

  function StatusName(s: RequestStatus): string {
    match s
    case Pending => "pending"
    case Accepted => "accepted"
    case InProgress => "in_progress"
    case Completed => "completed"
    case Cancelled => "cancelled"
  }

  /** The schema's `enum` check on `status`: only the five names are stored. */
  function ParseStatus(s: string): (r: Option<RequestStatus>)
    ensures r.Some? <==>
      s == "pending" || s == "accepted" || s == "in_progress" || s == "completed" || s == "cancelled"
    ensures r.Some? ==> StatusName(r.value) == s
  {
    if s == "pending" then Some(Pending)
    else if s == "accepted" then Some(Accepted)
    else if s == "in_progress" then Some(InProgress)
    else if s == "completed" then Some(Completed)
    else if s == "cancelled" then Some(Cancelled)
    else None
  }

  /** A stored service request. Times are milliseconds since the epoch. */
  datatype ServiceRequest = ServiceRequest(
    id: ObjectId,
    customerId: ObjectId,
    workerId: ObjectId,
    listingType: ListingType,
    price: real,
    duration: Option<string>,
    status: RequestStatus,
    scheduledAt: Option<int>,
    message: Option<string>,
    isPaid: bool,
    createdAt: int,
    updatedAt: int)

  /** The body fields the create handler copies into the new document;
      `None` is a field the body leaves out. */
  datatype RequestInput = RequestInput(
    workerId: Option<ObjectId>,
    listingType: Option<string>,
    price: Option<real>,
    duration: Option<string>,
    scheduledAt: Option<int>,
    message: Option<string>)

  /** Building a request document and saving it. The save fails validation
      (a 500 from the handler) unless `workerId`, `price` and a known
      `listingType` are present; `status` starts at `pending`, `isPaid`
      at false, and both timestamps at the current time. */
  function NewRequest(id: ObjectId, customerId: ObjectId, input: RequestInput, now: int): (r: Outcome<ServiceRequest>)
    ensures r.Ok? <==>
      input.workerId.Some? && input.price.Some? &&
      input.listingType.Some? && ParseListingType(input.listingType.value).Some?
    ensures r.Fail? ==> r.error == ServerError
    ensures r.Ok? ==>
      && r.value.id == id
      && r.value.customerId == customerId
      && r.value.workerId == input.workerId.value
      && ListingTypeName(r.value.listingType) == input.listingType.value
      && r.value.price == input.price.value
      && r.value.status == Pending
      && !r.value.isPaid
      && r.value.createdAt == now && r.value.updatedAt == now
  {
    if input.workerId.None? || input.price.None? || input.listingType.None? then Fail(ServerError)
    else match ParseListingType(input.listingType.value)
      case None => Fail(ServerError)
      case Some(lt) =>
        Ok(ServiceRequest(id, customerId, input.workerId.value, lt, input.price.value,
                          input.duration, Pending, input.scheduledAt, input.message,
                          false, now, now))
  }

  /** `Request.findById(id)`: the position of the request in the collection. */
  function FindRequest(requests: seq<ServiceRequest>, id: ObjectId): (r: Option<nat>)
    ensures r.Some? ==> r.value < |requests| && requests[r.value].id == id
    ensures r.None? <==> forall q :: q in requests ==> q.id != id
  {
    FindIndex(requests, (q: ServiceRequest) => q.id == id)
  }
}
