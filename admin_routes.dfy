/** The admin routes, each behind `roleMiddleware('ADMIN')`: the
    platform statistics, marking a worker profile verified, and blocking
    or unblocking an account. */
module AdminRoutes {
  import opened Common
  import opened UserModel
  import opened WorkerProfileModel
  import opened PaymentModel
  import opened AuthMiddleware
  import opened Store

  /** The role gate every admin route passes first. */
  function AdminGate(caller: Principal): (r: Outcome<Principal>)
    ensures r.Ok? <==> caller.role == Admin
    ensures r.Fail? ==> r.error == Forbidden
  {
    RoleMiddleware(Some(caller), [Admin])
  }

  function CommissionOf(p: Payment): real {
    p.commissionAmount
  }

  /** The platform's revenue: the commissions of the completed payments. */
  function Revenue(payments: seq<Payment>): real {
    Sum(Filter(payments, (p: Payment) => p.status == PaymentCompleted), CommissionOf)
  }

  /** A new payment changes the revenue by its commission when it is
      completed, and not at all otherwise. */
  lemma RevenueAppend(payments: seq<Payment>, p: Payment)
    ensures Revenue(payments + [p]) ==
      Revenue(payments) + (if p.status == PaymentCompleted then p.commissionAmount else 0.0)
  {
    var completed := (x: Payment) => x.status == PaymentCompleted;
    FilterAppend(payments, [p], completed);
    assert [p][1..] == [];
    SumAppend(Filter(payments, completed), Filter([p], completed), CommissionOf);
  }

  /** Revenue is never negative while commissions are not. */
  lemma {:induction false} RevenueNonNegative(payments: seq<Payment>)
    requires forall p :: p in payments ==> p.commissionAmount >= 0.0
    ensures Revenue(payments) >= 0.0
  {
    if payments != [] {
      var n := |payments| - 1;
      assert payments == payments[..n] + [payments[n]];
      forall p | p in payments[..n] ensures p.commissionAmount >= 0.0 {
        assert p in payments;
      }
      RevenueNonNegative(payments[..n]);
      RevenueAppend(payments[..n], payments[n]);
    }
  }

  /** The statistics GET /admin/stats returns. */
  datatype PlatformStats = PlatformStats(
    totalUsers: nat,
    totalWorkers: nat,
    totalCustomers: nat,
    totalRequests: nat,
    revenue: real)

  /** GET /admin/stats: 403 for a non-admin; otherwise the number of users,
      of worker profiles (not of users with the worker role), of users
      with the customer role, of requests, and the revenue. */
  function Stats(caller: Principal, s: State): (r: Outcome<PlatformStats>)
    ensures r.Ok? <==> caller.role == Admin
    ensures r.Fail? ==> r.error == Forbidden
    ensures r.Ok? ==>
      && r.value.totalUsers == |s.users| && r.value.totalWorkers == |s.profiles|
      && r.value.totalRequests == |s.requests| && r.value.revenue == Revenue(s.payments)
      && r.value.totalCustomers <= r.value.totalUsers
      && r.value.totalCustomers == |Filter(s.users, (u: User) => u.role == Customer)|
  {
    match AdminGate(caller)
    case Fail(e) => Fail(e)
    case Ok(_) =>
      Ok(PlatformStats(
        |s.users|, |s.profiles|, Count(s.users, (u: User) => u.role == Customer), |s.requests|,
        Revenue(s.payments)))
  }

  /** PATCH /admin/verifyWorker/:id: 403 for a non-admin, 404 for an
      unknown profile; otherwise the profile is marked verified and
      nothing else changes. */
  method VerifyWorker(db: Database, caller: Principal, id: ObjectId) returns (r: Outcome<WorkerProfile>)
    requires db.Valid()
    modifies db
    ensures db.Valid()
    ensures caller.role != Admin ==> r == Fail(Forbidden)
    ensures caller.role == Admin && FindProfile(old(db.profiles), id).None? ==> r == Fail(NotFound)
    ensures caller.role == Admin && FindProfile(old(db.profiles), id).Some? ==>
      var k := FindProfile(old(db.profiles), id).value;
      && r == Ok(old(db.profiles)[k].(verified := true))
      && db.Snapshot() == old(db.Snapshot()).(profiles := old(db.profiles)[k := r.value])
    ensures r.Ok? ==> r.value.verified && r.value.id == id
    ensures r.Fail? ==> db.Snapshot() == old(db.Snapshot())
  {
    var gate := AdminGate(caller);
    if gate.Fail? {
      return Fail(gate.error);
    }
    var found := FindProfile(db.profiles, id);
    if found.None? {
      return Fail(NotFound);
    }
    var k := found.value;
    var s := db.Snapshot();
    var updated := s.profiles[k].(verified := true);
    ReplaceProfile(s, k, updated);
    db.profiles := s.profiles[k := updated];
    assert db.Snapshot() == s.(profiles := s.profiles[k := updated]);
    r := Ok(updated);
  }

  /** Verifying an already verified profile writes back what is stored:
      the route is idempotent. */
  lemma VerifyIdempotent(profiles: seq<WorkerProfile>, k: nat)
    requires k < |profiles| && profiles[k].verified
    ensures profiles[k := profiles[k].(verified := true)] == profiles
  {
  }

  /** The flag the block route stores: the body's `isBlocked`, and an
      absent one leaves the field unset, which reads as not blocked. */
  function BlockedFlag(isBlocked: Option<bool>): (b: bool)
    ensures b <==> isBlocked == Some(true)
  {
    isBlocked.Some? && isBlocked.value
  }

  /** PATCH /admin/users/:id: 403 for a non-admin, 404 for an unknown
      user; otherwise the user's `isBlocked` becomes the body's flag and
      nothing else changes. Nothing stops an admin from blocking another
      admin or themselves. */
  method SetBlocked(db: Database, caller: Principal, id: ObjectId, isBlocked: Option<bool>) returns (r: Outcome<User>)
    requires db.Valid()
    modifies db
    ensures db.Valid()
    ensures caller.role != Admin ==> r == Fail(Forbidden)
    ensures caller.role == Admin && UserIndex(old(db.users), id).None? ==> r == Fail(NotFound)
    ensures caller.role == Admin && UserIndex(old(db.users), id).Some? ==>
      var k := UserIndex(old(db.users), id).value;
      && r == Ok(old(db.users)[k].(isBlocked := BlockedFlag(isBlocked)))
      && db.Snapshot() == old(db.Snapshot()).(users := old(db.users)[k := r.value])
    ensures r.Fail? ==> db.Snapshot() == old(db.Snapshot())
  {
    var gate := AdminGate(caller);
    if gate.Fail? {
      return Fail(gate.error);
    }
    var found := UserIndex(db.users, id);
    if found.None? {
      return Fail(NotFound);
    }
    var k := found.value;
    var updated := db.users[k].(isBlocked := BlockedFlag(isBlocked));
    var before := db.Snapshot();
    ReplaceUser(before, k, updated);
    db.users := before.users[k := updated];
    assert db.Snapshot() == before.(users := before.users[k := updated]);
    r := Ok(updated);
  }

  /** Once blocked, a user is refused by `authMiddleware` whatever token
      they present; once unblocked, a token that verifies for them lets
      them in again. */
  lemma BlockTakesEffect(users: seq<User>, k: nat, flag: bool, cookie: Option<string>, authorization: Option<string>,
                         verify: string -> Option<ObjectId>)
    requires k < |users| && UserIndex(users, users[k].id) == Some(k)
    requires TokenFrom(cookie, authorization).Some?
    requires verify(TokenFrom(cookie, authorization).value) == Some(users[k].id)
    ensures var after := users[k := users[k].(isBlocked := flag)];
      Authenticate(after, cookie, authorization, verify).Ok? <==> !flag
  {
    UserIndexAfterWrite(users, k, users[k].(isBlocked := flag));
  }

  /** Rewriting a user in place keeps where `findById` finds them. */
  lemma UserIndexAfterWrite(users: seq<User>, k: nat, u: User)
    requires k < |users| && UserIndex(users, users[k].id) == Some(k) && u.id == users[k].id
    ensures UserIndex(users[k := u], u.id) == Some(k)
    ensures FindUser(users[k := u], u.id) == Some(u)
  {
    assert users[k := u][k] in users[k := u];
  }
}
