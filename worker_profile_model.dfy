/** The worker-profile schema: enumerations, defaults, the embedded list
    of offered services, and what saving a created or edited profile
    accepts. */
module WorkerProfileModel {
  import opened Common

  datatype Category =
    Plumber | Electrician | Carpenter | Painter | Mason | Cleaning | Cooking | Gardening | Delivery | Other

  function CategoryName(c: Category): string {
    match c
    case Plumber => "Plumber"
    case Electrician => "Electrician"
    case Carpenter => "Carpenter"
    case Painter => "Painter"
    case Mason => "Mason"
    case Cleaning => "Cleaning"
    case Cooking => "Cooking"
    case Gardening => "Gardening"
    case Delivery => "Delivery"
    case Other => "Other"
  }

  function ParseCategory(s: string): (r: Option<Category>)
    ensures r.Some? ==> CategoryName(r.value) == s
    ensures forall c :: s == CategoryName(c) ==> r == Some(c)
  {
    if s == "Plumber" then Some(Plumber)
    else if s == "Electrician" then Some(Electrician)
    else if s == "Carpenter" then Some(Carpenter)
    else if s == "Painter" then Some(Painter)
    else if s == "Mason" then Some(Mason)
    else if s == "Cleaning" then Some(Cleaning)
    else if s == "Cooking" then Some(Cooking)
    else if s == "Gardening" then Some(Gardening)
    else if s == "Delivery" then Some(Delivery)
    else if s == "Other" then Some(Other)
    else None
  }

  datatype ChargeType = Hourly | Daily | Fixed | Monthly

  function ChargeTypeName(c: ChargeType): string {
    match c
    case Hourly => "hourly"
    case Daily => "daily"
    case Fixed => "fixed"
    case Monthly => "monthly"
  }

  function ParseChargeType(s: string): (r: Option<ChargeType>)
    ensures r.Some? <==> s == "hourly" || s == "daily" || s == "fixed" || s == "monthly"
    ensures r.Some? ==> ChargeTypeName(r.value) == s
  {
    if s == "hourly" then Some(Hourly)
    else if s == "daily" then Some(Daily)
    else if s == "fixed" then Some(Fixed)
    else if s == "monthly" then Some(Monthly)
    else None
  }

  datatype Availability = Available | Busy | Unavailable

  function AvailabilityName(a: Availability): string {
    match a
    case Available => "available"
    case Busy => "busy"
    case Unavailable => "unavailable"
  }

  function ParseAvailability(s: string): (r: Option<Availability>)
    ensures r.Some? <==> s == "available" || s == "busy" || s == "unavailable"
    ensures r.Some? ==> AvailabilityName(r.value) == s
  {
    if s == "available" then Some(Available)
    else if s == "busy" then Some(Busy)
    else if s == "unavailable" then Some(Unavailable)
    else None
  }

  /** One entry of the embedded `services` array. */
  datatype Service = Service(
    id: ObjectId,
    title: string,
    description: Option<string>,
    chargeType: ChargeType,
    price: real,
    duration: Option<string>,
    active: bool)

  /** A stored worker profile. */
  datatype WorkerProfile = WorkerProfile(
    id: ObjectId,
    userId: ObjectId,
    displayName: string,
    category: Category,
    skills: seq<string>,
    description: Option<string>,
    chargeType: ChargeType,
    price: real,
    availability: Availability,
    verified: bool,
    rating: real,
    totalReviews: int,
    listingType: ListingType,
    proWorker: bool,
    services: seq<Service>)

  /** The profile fields a request body may carry; `None` is a field the
      body leaves out. The routes copy whatever is given onto the
      document, so `verified`, `rating` and `totalReviews` are here too. */
  datatype ProfileFields = ProfileFields(
    displayName: Option<string>,
    category: Option<string>,
    skills: Option<seq<string>>,
    description: Option<string>,
    chargeType: Option<string>,
    price: Option<real>,
    availability: Option<string>,
    verified: Option<bool>,
    rating: Option<real>,
    totalReviews: Option<int>,
    listingType: Option<string>,
    proWorker: Option<bool>)

  /** The service fields a request body may carry. */
  datatype ServiceFields = ServiceFields(
    title: Option<string>,
    description: Option<string>,
    chargeType: Option<string>,
    price: Option<real>,
    duration: Option<string>,
    active: Option<bool>)

  /** A required string passes Mongoose's `required` check only when it is
      non-empty. */
  predicate RequiredText(s: string) {
    s != ""
  }

  predicate ServiceValid(s: Service) {
    RequiredText(s.title)
  }

  /** What validation guarantees of every saved profile. */
  predicate ProfileValid(p: WorkerProfile) {
    && RequiredText(p.displayName)
    && forall i :: 0 <= i < |p.services| ==> ServiceValid(p.services[i])
  }

  function GetOr<T>(o: Option<T>, default: T): T {
    match o
    case Some(v) => v
    case None => default
  }

  /** `new WorkerProfile({ userId, ...body })` followed by `save()`:
      `displayName`, `category`, `chargeType` and `price` are required;
      `availability` defaults to available, `listingType` to on-demand,
      `verified` and `proWorker` to false, `rating` and `totalReviews` to 0,
      and the services list starts empty. */
  function NewProfile(id: ObjectId, userId: ObjectId, f: ProfileFields): (r: Outcome<WorkerProfile>)
    ensures r.Ok? <==>
      && f.displayName.Some? && RequiredText(f.displayName.value)
      && f.category.Some? && ParseCategory(f.category.value).Some?
      && f.chargeType.Some? && ParseChargeType(f.chargeType.value).Some?
      && f.price.Some?
      && (f.availability.Some? ==> ParseAvailability(f.availability.value).Some?)
      && (f.listingType.Some? ==> ParseListingType(f.listingType.value).Some?)
    ensures r.Fail? ==> r.error == ServerError
    ensures r.Ok? ==> ProfileValid(r.value) && r.value.id == id && r.value.userId == userId && r.value.services == []
    ensures r.Ok? && f.availability.None? ==> r.value.availability == Available
    ensures r.Ok? && f.listingType.None? ==> r.value.listingType == OnDemand
    ensures r.Ok? && f.verified.None? ==> !r.value.verified
    ensures r.Ok? && f.proWorker.None? ==> !r.value.proWorker
    ensures r.Ok? && f.rating.None? ==> r.value.rating == 0.0
    ensures r.Ok? && f.totalReviews.None? ==> r.value.totalReviews == 0
    ensures r.Ok? ==>
      && r.value.displayName == f.displayName.value
      && CategoryName(r.value.category) == f.category.value
      && ChargeTypeName(r.value.chargeType) == f.chargeType.value
      && r.value.price == f.price.value
      && r.value.skills == GetOr(f.skills, [])
      && r.value.description == f.description
    ensures r.Ok? && f.availability.Some? ==> AvailabilityName(r.value.availability) == f.availability.value
    ensures r.Ok? && f.listingType.Some? ==> ListingTypeName(r.value.listingType) == f.listingType.value
    ensures r.Ok? && f.verified.Some? ==> r.value.verified == f.verified.value
    ensures r.Ok? && f.proWorker.Some? ==> r.value.proWorker == f.proWorker.value
    ensures r.Ok? && f.rating.Some? ==> r.value.rating == f.rating.value
    ensures r.Ok? && f.totalReviews.Some? ==> r.value.totalReviews == f.totalReviews.value
  {
    if f.displayName.None? || !RequiredText(f.displayName.value)
       || f.category.None? || f.chargeType.None? || f.price.None? then Fail(ServerError)
    else
      var category := ParseCategory(f.category.value);
      var chargeType := ParseChargeType(f.chargeType.value);
      var availability := if f.availability.Some? then ParseAvailability(f.availability.value) else Some(Available);
      var listingType := if f.listingType.Some? then ParseListingType(f.listingType.value) else Some(OnDemand);
      if category.None? || chargeType.None? || availability.None? || listingType.None? then Fail(ServerError)
      else Ok(WorkerProfile(
        id, userId, f.displayName.value, category.value, GetOr(f.skills, []), f.description,
        chargeType.value, f.price.value, availability.value, GetOr(f.verified, false),
        GetOr(f.rating, 0.0), GetOr(f.totalReviews, 0), listingType.value,
        GetOr(f.proWorker, false), []))
  }

  /** `Object.assign(profile, body)` followed by `save()`: every given field
      replaces the stored one, the rest stay; the save fails on an empty
      display name or an unknown enumeration name. */
  function AssignProfile(p: WorkerProfile, f: ProfileFields): (r: Outcome<WorkerProfile>)
    requires ProfileValid(p)
    ensures r.Ok? <==>
      && (f.displayName.Some? ==> RequiredText(f.displayName.value))
      && (f.category.Some? ==> ParseCategory(f.category.value).Some?)
      && (f.chargeType.Some? ==> ParseChargeType(f.chargeType.value).Some?)
      && (f.availability.Some? ==> ParseAvailability(f.availability.value).Some?)
      && (f.listingType.Some? ==> ParseListingType(f.listingType.value).Some?)
    ensures r.Fail? ==> r.error == ServerError
    ensures r.Ok? ==>
      && ProfileValid(r.value)
      && r.value.id == p.id && r.value.userId == p.userId && r.value.services == p.services
      && r.value.displayName == GetOr(f.displayName, p.displayName)
      && r.value.verified == GetOr(f.verified, p.verified)
      && r.value.rating == GetOr(f.rating, p.rating)
      && r.value.totalReviews == GetOr(f.totalReviews, p.totalReviews)
      && r.value.price == GetOr(f.price, p.price)
      && r.value.skills == GetOr(f.skills, p.skills)
      && r.value.proWorker == GetOr(f.proWorker, p.proWorker)
      && r.value.description == (if f.description.Some? then f.description else p.description)
    ensures r.Ok? && f.category.Some? ==> CategoryName(r.value.category) == f.category.value
    ensures r.Ok? && f.category.None? ==> r.value.category == p.category
    ensures r.Ok? && f.chargeType.Some? ==> ChargeTypeName(r.value.chargeType) == f.chargeType.value
    ensures r.Ok? && f.chargeType.None? ==> r.value.chargeType == p.chargeType
    ensures r.Ok? && f.availability.Some? ==> AvailabilityName(r.value.availability) == f.availability.value
    ensures r.Ok? && f.availability.None? ==> r.value.availability == p.availability
    ensures r.Ok? && f.listingType.Some? ==> ListingTypeName(r.value.listingType) == f.listingType.value
    ensures r.Ok? && f.listingType.None? ==> r.value.listingType == p.listingType
  {
    var category := if f.category.Some? then ParseCategory(f.category.value) else Some(p.category);
    var chargeType := if f.chargeType.Some? then ParseChargeType(f.chargeType.value) else Some(p.chargeType);
    var availability := if f.availability.Some? then ParseAvailability(f.availability.value) else Some(p.availability);
    var listingType := if f.listingType.Some? then ParseListingType(f.listingType.value) else Some(p.listingType);
    if (f.displayName.Some? && !RequiredText(f.displayName.value))
       || category.None? || chargeType.None? || availability.None? || listingType.None? then Fail(ServerError)
    else Ok(p.(
      displayName := GetOr(f.displayName, p.displayName),
      category := category.value,
      skills := GetOr(f.skills, p.skills),
      description := if f.description.Some? then f.description else p.description,
      chargeType := chargeType.value,
      price := GetOr(f.price, p.price),
      availability := availability.value,
      verified := GetOr(f.verified, p.verified),
      rating := GetOr(f.rating, p.rating),
      totalReviews := GetOr(f.totalReviews, p.totalReviews),
      listingType := listingType.value,
      proWorker := GetOr(f.proWorker, p.proWorker)))
  }

  /** Pushing a new service entry and saving: `title`, `chargeType` and
      `price` are required and `active` defaults to true. */
  function NewService(id: ObjectId, f: ServiceFields): (r: Outcome<Service>)
    ensures r.Ok? <==>
      && f.title.Some? && RequiredText(f.title.value)
      && f.chargeType.Some? && ParseChargeType(f.chargeType.value).Some?
      && f.price.Some?
    ensures r.Fail? ==> r.error == ServerError
    ensures r.Ok? ==> ServiceValid(r.value) && r.value.id == id
    ensures r.Ok? && f.active.None? ==> r.value.active
    ensures r.Ok? ==>
      && r.value.title == f.title.value
      && ChargeTypeName(r.value.chargeType) == f.chargeType.value
      && r.value.price == f.price.value
      && r.value.description == f.description && r.value.duration == f.duration
    ensures r.Ok? && f.active.Some? ==> r.value.active == f.active.value
  {
    if f.title.None? || !RequiredText(f.title.value) || f.chargeType.None? || f.price.None? then Fail(ServerError)
    else match ParseChargeType(f.chargeType.value)
      case None => Fail(ServerError)
      case Some(ct) =>
        Ok(Service(id, f.title.value, f.description, ct, f.price.value, f.duration, GetOr(f.active, true)))
  }

  /** `Object.assign(service, body)` followed by saving the profile. */
  function AssignService(s: Service, f: ServiceFields): (r: Outcome<Service>)
    ensures r.Ok? <==>
      && (f.title.Some? ==> RequiredText(f.title.value))
      && (f.chargeType.Some? ==> ParseChargeType(f.chargeType.value).Some?)
    ensures r.Fail? ==> r.error == ServerError
    ensures r.Ok? ==> r.value.id == s.id && r.value.title == GetOr(f.title, s.title)
    ensures r.Ok? ==> r.value.price == GetOr(f.price, s.price) && r.value.active == GetOr(f.active, s.active)
    ensures r.Ok? && ServiceValid(s) ==> ServiceValid(r.value)
    ensures r.Ok? ==>
      && (f.chargeType.Some? ==> ChargeTypeName(r.value.chargeType) == f.chargeType.value)
      && (f.chargeType.None? ==> r.value.chargeType == s.chargeType)
      && r.value.description == (if f.description.Some? then f.description else s.description)
      && r.value.duration == (if f.duration.Some? then f.duration else s.duration)
  {
    var chargeType := if f.chargeType.Some? then ParseChargeType(f.chargeType.value) else Some(s.chargeType);
    if (f.title.Some? && !RequiredText(f.title.value)) || chargeType.None? then Fail(ServerError)
    else Ok(s.(
      title := GetOr(f.title, s.title),
      description := if f.description.Some? then f.description else s.description,
      chargeType := chargeType.value,
      price := GetOr(f.price, s.price),
      duration := if f.duration.Some? then f.duration else s.duration,
      active := GetOr(f.active, s.active)))
  }

  /** `WorkerProfile.findOne({ userId })`. */
  function FindProfileOf(profiles: seq<WorkerProfile>, userId: ObjectId): (r: Option<nat>)
    ensures r.Some? ==> r.value < |profiles| && profiles[r.value].userId == userId
    ensures r.None? <==> forall p :: p in profiles ==> p.userId != userId
  {
    FindIndex(profiles, (p: WorkerProfile) => p.userId == userId)
  }

  /** `WorkerProfile.findById(id)`. */
  function FindProfile(profiles: seq<WorkerProfile>, id: ObjectId): (r: Option<nat>)
    ensures r.Some? ==> r.value < |profiles| && profiles[r.value].id == id
    ensures r.None? <==> forall p :: p in profiles ==> p.id != id
  {
    FindIndex(profiles, (p: WorkerProfile) => p.id == id)
  }

  /** `profile.services.id(serviceId)`. */
  function FindService(services: seq<Service>, id: ObjectId): (r: Option<nat>)
    ensures r.Some? ==> r.value < |services| && services[r.value].id == id
    ensures r.None? <==> forall s :: s in services ==> s.id != id
  {
    FindIndex(services, (s: Service) => s.id == id)
  }
}
