# kaamdhenu backend — a Dafny model of its routes and models

kaamdhenu is a service marketplace backend: customers hire workers through
service requests and review them afterwards. Workers keep a profile with a
list of services. Businesses post jobs that users apply to. Admins verify
workers, block accounts and read platform statistics. The original is an
Express application over Mongoose collections.

This project models that backend:

- **Data.** The Mongoose schemas are Dafny datatypes: `ServiceRequest`,
  `Review`, `WorkerProfile` with its `Service`s, `JobPost` with its
  `Applicant`s, `Payment` and `User`. Enumerated fields become enumerations,
  each with its parser.
- **Database.** The collections live in one `class Database` (module
  `Store`). It has a field per collection and a single `nextId` counter
  that stands in for fresh ObjectIds.
- **Invariant.** `Invariant` holds for every state the handlers reach. Ids
  are unique and below `nextId`. A worker has at most one profile, and every
  profile belongs to a stored user. A request has at most one review, and
  every stored rating is in [1, 5]. Every stored profile and job satisfies
  its schema, and each job lists each applicant once.
- **Handlers.** A handler that writes to the database is a method that
  `modifies` the database. It keeps `Valid()` and states the whole new
  state in terms of the old one. A handler that only reads is a function
  over the collections it reads.
- **Errors.** Every status code the handlers send is an `Outcome` failure:
  400, 401, 403, 404, or 500 where the save would be refused or would throw.
- **Properties.** They are proved as `ensures` clauses and lemmas. They cover:
  - the order of the authorization checks;
  - that a blocked account is locked out after the block;
  - that registration keeps emails and phones unique;
  - the rating recomputation's mean and bounds;
  - that search pages tile the matching profiles;
  - that applying to a job keeps the applicant list duplicate-free;
  - the defect in review creation described under Findings.

External collaborators are parameters:
- `verify` stands for JWT verification (`None` where it throws);
- `matches` stands for bcrypt's comparison, and the password hash is a value;
- `isEmail` stands for the email validator;
- `regex` stands for the case-insensitive `$regex` match;
- `now` stands for the clock.

backend/models/User.js is not part of this model. The `User` datatype holds
only the fields the core routes read or write: id, name, email, phone,
password hash, role and `isBlocked`.

## Model

| member | source | states |
|---|---|---|
| Common.ParseRole | backend/routes/auth.js:17 | a role parses exactly when it is one of WORKER, CUSTOMER, BUSINESS, ADMIN, and parsing inverts `RoleName` |
| Common.ParseListingType | backend/models/Request.js:14-18 | accepts exactly on-demand, project and job, inverting `ListingTypeName` |
| Common.TrimIsInfix | backend/routes/auth.js:13 | the trimmed name is the original with only white space cut from its two ends |
| Common.TrimShape | backend/routes/auth.js:13 | trimming never lengthens a name; the trimmed name is empty exactly when the name is all white space; a non-empty result starts and ends with a non-space |
| Common.ReplaceLeading | backend/middleware/auth.js:6 | replacing the first `Bearer ` of a header that starts with it leaves exactly the rest |
| UserModel.UserIndex | backend/middleware/auth.js:13 | `findById` on users: the index found holds the id; none is found exactly when no user has it |
| UserModel.FindUser | backend/middleware/auth.js:13 | the user found is stored and has the id; none exactly when no user has it; agrees with `UserIndex` |
| RequestModel.ParseStatus | backend/models/Request.js:26-30 | accepts exactly the five status names and inverts `StatusName` |
| RequestModel.NewRequest | backend/models/Request.js:3-60 | a new request saves exactly when the listing type is in the enum and the required fields are given; the saved request is pending, unpaid, owned by the customer; otherwise the save fails with 500 |
| RequestModel.FindRequest | backend/routes/requests.js:91 | `findById` on requests: found index holds the id; none exactly when no request has it |
| ReviewModel.NewReview | backend/models/Review.js:3-41 | a review saves exactly when a rating is given and lies in [1, 5]; otherwise 500 |
| ReviewModel.ReviewsFor | backend/routes/reviews.js:51 | `Review.find({ workerProfileId })`: exactly the stored reviews that point at the profile |
| ReviewModel.ReviewsForAppendOne | backend/routes/reviews.js:51 | a new review extends the found list by itself when it points at the profile, and leaves it unchanged otherwise |
| JobPostModel.ParseSalaryType | backend/models/JobPost.js:25-29 | accepts exactly monthly, daily and fixed, inverting `SalaryTypeName` |
| JobPostModel.NewJob | backend/models/JobPost.js:3-54 | a job saves exactly when the required fields are given and the salary type is valid; it stores the given title, description, category, salary, salary type and location, the given requirements (else none) and the current time; it is open, has no applicants, belongs to the employer and defaults to a monthly salary |
| JobPostModel.FindJob | backend/routes/jobs.js:66 | `findById` on jobs: found index holds the id; none exactly when no job has it |
| WorkerProfileModel.ParseCategory | backend/models/WorkerProfile.js:14-18 | every category name parses to its category, and what parses prints back to the input |
| WorkerProfileModel.ParseChargeType | backend/models/WorkerProfile.js:25-29 | accepts exactly hourly, daily, fixed and monthly, inverting `ChargeTypeName` |
| WorkerProfileModel.ParseAvailability | backend/models/WorkerProfile.js:42-46 | accepts exactly available, busy and unavailable, inverting `AvailabilityName` |
| WorkerProfileModel.NewProfile | backend/models/WorkerProfile.js:3-95 | a new profile saves exactly when the required fields are present and every enum parses; it stores each given field (an enum under the name given) and takes each schema default for an absent one; it satisfies the schema and has no services |
| WorkerProfileModel.AssignProfile | backend/routes/workers.js:188 | `Object.assign` then save: succeeds exactly when every given enum parses and required text stays present; keeps id, owner and services; every given field is stored as given (an enum under the name given) and every absent field keeps its stored value |
| WorkerProfileModel.NewService | backend/models/WorkerProfile.js:82-90 | a pushed service validates exactly when title, charge type and price are given and valid; it stores the given title, charge type, price, description and duration, and `active` as given, else true |
| WorkerProfileModel.AssignService | backend/routes/workers.js:46 | assigning a service succeeds exactly when a given charge type parses and text stays present; it keeps the id, stores each given field (the charge type under the name given), keeps each absent one, and keeps a valid service valid |
| WorkerProfileModel.FindProfileOf | backend/routes/workers.js:16 | `findOne({ userId })`: the index found belongs to the user; none exactly when the user has no profile |
| WorkerProfileModel.FindProfile | backend/routes/workers.js:204 | `findById` on profiles: found index holds the id; none exactly when no profile has it |
| WorkerProfileModel.FindService | backend/routes/workers.js:44 | `services.id(...)`: found index holds the id; none exactly when no service has it |
| Store.InsertProfile | backend/models/WorkerProfile.js:4-9 | adding a profile for a stored user without one keeps the invariant, including one profile per user |
| Store.InsertReview | backend/routes/reviews.js:31-46 | adding an in-range review for a request with no review keeps the invariant, including one review per request |
| Store.OwnerIsNotAProfile | backend/routes/reviews.js:41 | in every reachable state a profile's owner id is never the id of a profile |
| AuthMiddleware.TokenFrom | backend/middleware/auth.js:6 | the cookie wins when present; without a cookie and without a header there is no token; with only a header the token is the header with its first `Bearer ` removed, absent exactly when that leaves nothing; the token found is never empty |
| AuthMiddleware.BearerHeaderYieldsToken | backend/middleware/auth.js:6 | without a cookie, `Authorization: Bearer t` yields `t` |
| AuthMiddleware.PlainHeaderIsToken | backend/middleware/auth.js:6 | without a cookie, a non-empty header that does not contain `Bearer ` is itself the token |
| AuthMiddleware.Authenticate | backend/middleware/auth.js:4-24 | succeeds exactly when a token is present, verifies, and names a stored unblocked user; on success `req.user` is exactly that user without the password; every failure is 401 |
| AuthMiddleware.BlockedUserRejected | backend/middleware/auth.js:15-17 | a blocked user is refused with 401 even with a valid token |
| AuthMiddleware.RoleMiddleware | backend/middleware/auth.js:26-33 | passes exactly when there is a user whose role is listed; otherwise 403 |
| RequestRoutes.CreateRequest | backend/routes/requests.js:10-36 | non-customers get 403; otherwise the request built from the body is appended, pending and owned by the caller, and the invariant is kept |
| RequestRoutes.ListRequests | backend/routes/requests.js:39-61 | workers see exactly the requests addressed to them, customers exactly their own, businesses and admins all; the status filter applies when given |
| RequestRoutes.GetRequest | backend/routes/requests.js:64-85 | 404 exactly for an unknown id; a returned request is the customer's, the worker's, or the caller is an admin |
| RequestRoutes.GetRequestAccess | backend/routes/requests.js:75-79 | with both parties stored, the request is returned exactly to its customer, its worker or an admin, and everyone else gets 403 |
| RequestRoutes.GetRequestDanglingWorker | backend/routes/requests.js:66-76 | a request whose worker account is gone makes the lookup throw (500) for anyone but its customer |
| RequestRoutes.StatusUpdate | backend/routes/requests.js:97-111 | for a given status: 403 exactly when accepting or cancelling by a non-worker, or starting or completing by a non-party; otherwise that status if it parses, else 500; a missing status skips both checks and succeeds with the default, pending |
| RequestRoutes.StatusUpdateIgnoresCurrentStatus | backend/routes/requests.js:97-111 | the outcome does not depend on the request's current status |
| RequestRoutes.CompletedRequestReopened | backend/routes/requests.js:97-111 | anyone may move a completed request back to pending |
| RequestRoutes.CancelledRequestCompleted | backend/routes/requests.js:104-109 | either party may complete a cancelled request |
| RequestRoutes.CustomerCannotAccept | backend/routes/requests.js:98-102 | the customer cannot accept their own request |
| RequestRoutes.UpdateStatus | backend/routes/requests.js:88-119 | 404 for an unknown id; otherwise the outcome of `StatusUpdate`, and on success only the status and `updatedAt` of that request change |
| ReviewRoutes.ReviewChecks | backend/routes/reviews.js:14-35 | 403 for non-customers, then 404, then 403 for someone else's request, then 400 unless completed, then 400 for a second review |
| ReviewRoutes.RoleCheckedBeforeExistence | backend/routes/reviews.js:14-21 | a non-customer gets 403 even for an unknown request |
| ReviewRoutes.SecondReviewRefused | backend/routes/reviews.js:31-35 | a request that has a review cannot be reviewed again |
| ReviewRoutes.MeanBounds | backend/routes/reviews.js:52-53 | a total between n·lo and n·hi has its mean in [lo, hi] |
| ReviewRoutes.Recompute | backend/routes/reviews.js:51-54 | no summary exactly when no review points at the profile; otherwise the count of those reviews and the mean of their ratings, which is in [1, 5] when all ratings are |
| ReviewRoutes.OtherReviewNotCounted | backend/routes/reviews.js:51 | a review pointing elsewhere does not change the profile's summary |
| ReviewRoutes.OwnReviewCounted | backend/routes/reviews.js:51-54 | a review pointing at the profile raises the count by one and enters the mean |
| ReviewRoutes.RatingUpdate | backend/routes/reviews.js:49-56 | no profile: nothing changes; with a profile: 500 exactly when no review points at it, otherwise only that profile's rating and count change |
| ReviewRoutes.RatingUpdateKeepsInvariant | backend/routes/reviews.js:49-56 | a successful rating update keeps the invariant |
| ReviewRoutes.StoreAndRate | backend/routes/reviews.js:46-56 | the review is stored first, then the rating update applies or fails with nothing else changed |
| ReviewRoutes.CreateReview | backend/routes/reviews.js:10-62 | as written: the checks' failure, or the review stored with the worker's user id as `workerProfileId` and the next id consumed, followed by the rating update |
| ReviewRoutes.NewReviewNotCounted | backend/routes/reviews.js:41 | the stored review never enters its worker's recomputation |
| ReviewRoutes.FirstReviewFailsAsWritten | backend/routes/reviews.js:41-55 | a worker with a profile and no counted reviews gets 500 from the rating update after the review is stored |
| ReviewRoutes.IntendedProfileId | backend/routes/reviews.js:41 | the intended `workerProfileId` is the id of the worker's own profile |
| ReviewRoutes.IntendedReviewCounted | backend/routes/reviews.js:49-55 | storing the profile's id, the update succeeds, the count grows by one and the mean includes the new rating and stays in [1, 5] |
| ReviewRoutes.CreateReviewIntended | backend/routes/reviews.js:10-62 | the corrected handler: same checks, the review stored under the next id; a valid rating for a worker with a profile always succeeds |
| WorkerRoutes.MyProfile | backend/routes/workers.js:13-17 | 403 for non-workers, 404 without a profile, otherwise the caller's own profile |
| WorkerRoutes.GetMyProfile | backend/routes/workers.js:11-22 | succeeds exactly for a worker with a profile, returning that profile; 403 or 404 otherwise |
| WorkerRoutes.AddService | backend/routes/workers.js:25-36 | the gate's error, or the service validated and appended to the caller's profile with a fresh id and nothing else changed |
| WorkerRoutes.UpdateService | backend/routes/workers.js:39-52 | the gate's error, 404 for an unknown service, or that service reassigned in place and nothing else changed |
| WorkerRoutes.DeleteService | backend/routes/workers.js:55-68 | the gate's error, 404 for an unknown service, or exactly that service removed |
| WorkerRoutes.DeleteUndoesAdd | backend/routes/workers.js:30-62 | deleting a just-added service restores the list |
| WorkerRoutes.WithStatus | backend/routes/workers.js:81-87 | exactly the requests in the given status |
| WorkerRoutes.AddressedTo | backend/routes/workers.js:80 | exactly the requests addressed to the worker |
| WorkerRoutes.DashboardStats | backend/routes/workers.js:71-98 | 404 exactly without a profile (any role); otherwise the request counts per status, the earnings of completed requests and the profile's rating |
| WorkerRoutes.StatusCountsBounded | backend/routes/workers.js:85-88 | pending, accepted and completed together never exceed the total |
| WorkerRoutes.DashboardCountsBounded | backend/routes/workers.js:84-92 | the reported per-status counts never exceed the reported total |
| WorkerRoutes.EarningsNonNegative | backend/routes/workers.js:82 | earnings are non-negative when prices are |
| WorkerRoutes.Matching | backend/routes/workers.js:116-139 | exactly the profiles passing every given filter |
| WorkerRoutes.SearchWorkers | backend/routes/workers.js:141-149 | `total` counts all matches; the page is the matches from `skip`, at most `limit` of them (0 meaning all) |
| WorkerRoutes.MatchingIgnoresPaging | backend/routes/workers.js:141-147 | the filter does not depend on `skip` or `limit` |
| WorkerRoutes.PagesTile | backend/routes/workers.js:141-145 | consecutive pages of the same query join into the longer page |
| WorkerRoutes.VerifiedFilterIsStringEquality | backend/routes/workers.js:120 | any `verified` value other than "true" selects the unverified profiles |
| WorkerRoutes.UpsertProfile | backend/routes/workers.js:177-199 | 403 for non-workers; an existing profile is reassigned in place, otherwise a new profile is created for the caller; one profile per worker is kept |
| WorkerRoutes.UpsertKeepsOneProfile | backend/routes/workers.js:185 | the profile found for a user is the only one they have |
| WorkerRoutes.UpdateProfile | backend/routes/workers.js:202-221 | 404 for an unknown id, 403 for a non-owner, otherwise the owner's assignment is saved |
| WorkerRoutes.OwnerSetsVerificationFields | backend/routes/workers.js:214 | an owner may set `verified`, `rating` and `totalReviews` on their own profile |
| JobRoutes.CreateJob | backend/routes/jobs.js:9-29 | any authenticated role can post; the job is open and the caller is its employer |
| JobRoutes.ListJobs | backend/routes/jobs.js:32-49 | at most 50 jobs, all passing the filter, and every passing job when fewer than 50 pass |
| JobRoutes.Apply | backend/routes/jobs.js:64-87 | 404 for an unknown job, 400 for a repeat application, otherwise the caller is appended (whatever the job's status) and applicants stay distinct |
| JobRoutes.StoredApplicantsDistinct | backend/models/JobPost.js:34-43 | every stored job lists each applicant once |
| AdminRoutes.AdminGate | backend/routes/admin.js:11 | passes exactly for admins; otherwise 403 |
| AdminRoutes.RevenueAppend | backend/routes/admin.js:18-19 | a new payment adds its commission to the revenue when completed, nothing otherwise |
| AdminRoutes.RevenueNonNegative | backend/routes/admin.js:18-19 | revenue is non-negative when commissions are |
| AdminRoutes.Stats | backend/routes/admin.js:11-29 | admins only; counts users, worker profiles (not worker-role users), customers and requests, and the revenue |
| AdminRoutes.VerifyWorker | backend/routes/admin.js:32-47 | 403, 404, or exactly that profile marked verified |
| AdminRoutes.VerifyIdempotent | backend/routes/admin.js:40-41 | verifying a verified profile changes nothing |
| AdminRoutes.SetBlocked | backend/routes/admin.js:60-76 | 403, 404, or exactly that user's `isBlocked` rewritten |
| AdminRoutes.BlockTakesEffect | backend/routes/admin.js:69 | after the write, the middleware admits the user exactly when the flag is false |
| AdminRoutes.UserIndexAfterWrite | backend/routes/admin.js:69-70 | rewriting a user in place keeps where `findById` finds them |
| AuthRoutes.RegisterErrors | backend/routes/auth.js:12-17 | a field is reported exactly when its validator rejects it |
| AuthRoutes.ValidatedExactly | backend/routes/auth.js:12-23 | no errors exactly when the name is not blank, the email is valid, the phone is given, the password has six characters and the role is known |
| AuthRoutes.Registration | backend/routes/auth.js:19-34 | 400 exactly for a failing validator or a taken email or phone; otherwise an unblocked account with the trimmed name and the named role |
| AuthRoutes.AdminSelfRegistration | backend/routes/auth.js:17 | anyone can register as an admin |
| AuthRoutes.RegistrationKeepsContactsUnique | backend/routes/auth.js:27-34 | registration keeps emails and phones unique across accounts |
| AuthRoutes.Register | backend/routes/auth.js:12-57 | the registration outcome with a fresh id; a new account is appended and nothing else changes |
| AuthRoutes.FindByEmail | backend/routes/auth.js:71 | the user found has the email; none exactly when no user has it |
| AuthRoutes.Login | backend/routes/auth.js:60-105 | 400, then 401 for an unknown email or a wrong password, then 403 when blocked; `hasProfile` exactly when a profile exists |
| AuthRoutes.WrongPasswordHidesBlock | backend/routes/auth.js:73-79 | a wrong password gets 401 even for a blocked account |
| AuthRoutes.BlockedLoginForbidden | backend/routes/auth.js:77-79 | a blocked account with the right password gets 403 |
| AuthRoutes.Refresh | backend/routes/auth.js:130-153 | 401 exactly when the token is missing, does not verify, or names no user; otherwise that user |
| AuthRoutes.BlockedUserRefreshes | backend/routes/auth.js:141-149 | the refresh route issues a token to a blocked user |

## Left out
- RequestRoutes.UpdateStatus: a missing `status` is modelled as storing pending; the handler actually assigns `undefined`, so the stored document has no status field and the response omits it. Every read returns the schema default, pending, but a query filtering on `status=pending` does not match such a request. A `status` that is present but not a string (a number, `null`) is not modelled.

- backend/models/User.js is not part of this model; `User` carries only the fields the core reads or writes.
- Query result order (`sort`) and `populate` are not modelled; listings return matches in store order with ids, not embedded documents.
- Request address, duration, scheduledAt and message, profile skills, photos and slots, and job requirements are carried without their sub-structure, or not at all where nothing reads them.
- Mass-assignment bodies (`Object.assign`, `new Model(req.body)`) are modelled as a fixed set of optional fields; a body that overwrites `userId`, `_id` or `services` is not modelled.
- Mongoose casting of strings to numbers and of numbers to strings, and `Number(...)` of a non-numeric query (NaN), are not modelled; numeric query parameters arrive as numbers.
- `toFixed(1)` rounding of the rating is not modelled; the stored rating is the exact mean.
- GET /reviews/worker/:workerId, GET /workers/:id, GET /jobs/:id, GET /admin/users, GET /auth/me and POST /auth/logout are pure reads or cookie clearing, with no logic beyond a find, a sort and a limit. They are not modelled.
- Token generation, cookies, bcrypt hashing and JWT verification are parameters or values, not computations.
- A negative `limit` in the worker search (which Mongo reads as its absolute value) is not modelled; limits are natural numbers.
- Concurrency between requests and the atomicity of saves are not modelled; each handler runs alone on the state.
- String lengths are counted in characters, not UTF-16 code units; trimming removes the white-space characters JavaScript's `trim` removes, as a fixed list.
- An absent body field is validated as the empty string, as the validators treat it.
- Common.Trim: plain recursion without a contract of its own; its facts are the `Common.TrimShape` and `Common.TrimIsInfix` lemmas.
- ReviewRoutes.IntendedProfileId: falls back to the worker's user id when the worker has no profile; that id then matches no profile, as in the original.
- AdminRoutes.SetBlocked: a non-boolean `isBlocked` (which Mongoose would cast or refuse) is not modelled; an absent one stores `false`.

## Findings

| source | as written | input that shows it | evidently intended | confidence | as-written member | corrected member |
|---|---|---|---|---|---|---|
| backend/routes/reviews.js:41 | the new review's `workerProfileId` is the worker's user id, while the recomputation at :49-51 looks reviews up by the profile's id | a customer reviews a completed request of a worker who has a profile and no earlier review stored under that profile's id: the profile lookup finds no review, 0/0 is NaN, the profile save fails with 500, and the review stays stored | store the id of the worker's profile, so the new review is counted and the profile's rating becomes the mean of its reviews | not executed | ReviewRoutes.FirstReviewFailsAsWritten | ReviewRoutes.IntendedReviewCounted |
