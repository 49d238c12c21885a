/** The two middlewares every protected route runs through: token
    authentication and the role gate. Verifying a JSON Web Token is a
    parameter: `verify(token)` is the `userId` the token carries, or
    `None` when `jwt.verify` throws. */
module AuthMiddleware {
  import opened Common
  import opened UserModel

  /** The access token: the `accessToken` cookie when it is non-empty,
      otherwise the Authorization header with its first "Bearer " removed;
      `None` when the result is missing or empty. */
  function TokenFrom(cookie: Option<string>, authorization: Option<string>): (t: Option<string>)
    ensures t.Some? ==> t.value != ""
    ensures Given(cookie) ==> t == cookie
    ensures !Given(cookie) && authorization.None? ==> t.None?
    ensures !Given(cookie) && authorization.Some? ==>
      var stripped := ReplaceFirst(authorization.value, "Bearer ", "");
      && (t.Some? <==> stripped != "")
      && (t.Some? ==> t.value == stripped)
  {
    if Given(cookie) then cookie
    else match authorization
      case None => None
      case Some(h) =>
        var token := ReplaceFirst(h, "Bearer ", "");
        if token == "" then None else Some(token)
  }

  /** Without a cookie, a header "Bearer <t>" yields exactly `t`. */
  lemma BearerHeaderYieldsToken(cookie: Option<string>, t: string)
    requires !Given(cookie) && t != ""
    ensures TokenFrom(cookie, Some("Bearer " + t)) == Some(t)
  {
    ReplaceLeading("Bearer ", t);
  }

  /** A header with no "Bearer " in it is taken whole as the token. */
  lemma PlainHeaderIsToken(cookie: Option<string>, h: string)
    requires !Given(cookie) && h != ""
    requires forall k :: !OccursAt(h, "Bearer ", k)
    ensures TokenFrom(cookie, Some(h)) == Some(h)
  {
    assert IndexOfFrom(h, "Bearer ", 0).None?;
  }

  /** `authMiddleware`: 401 without a token, when the token does not
      verify, when its user does not exist, or when that user is blocked;
      otherwise the stored user becomes the request's principal. */
  function Authenticate(users: seq<User>, cookie: Option<string>, authorization: Option<string>,
                        verify: string -> Option<ObjectId>): (r: Outcome<Principal>)
    ensures r.Fail? ==> r.error == Unauthorized
    ensures TokenFrom(cookie, authorization).None? ==> r.Fail?
    ensures r.Ok? <==>
      && TokenFrom(cookie, authorization).Some?
      && verify(TokenFrom(cookie, authorization).value).Some?
      && FindUser(users, verify(TokenFrom(cookie, authorization).value).value).Some?
      && !FindUser(users, verify(TokenFrom(cookie, authorization).value).value).value.isBlocked
    ensures r.Ok? ==> exists u :: u in users && !u.isBlocked && r.value == PrincipalOf(u)
    ensures r.Ok? ==>
      r.value == PrincipalOf(FindUser(users, verify(TokenFrom(cookie, authorization).value).value).value)
  {
    match TokenFrom(cookie, authorization)
    case None => Fail(Unauthorized)
    case Some(token) =>
      match verify(token)
      case None => Fail(Unauthorized)
      case Some(userId) =>
        match FindUser(users, userId)
        case None => Fail(Unauthorized)
        case Some(u) => if u.isBlocked then Fail(Unauthorized) else Ok(PrincipalOf(u))
  }

  /** A blocked user is turned away even with a token that verifies. */
  lemma BlockedUserRejected(users: seq<User>, cookie: Option<string>, authorization: Option<string>,
                            verify: string -> Option<ObjectId>, u: User)
    requires TokenFrom(cookie, authorization).Some?
    requires verify(TokenFrom(cookie, authorization).value) == Some(u.id)
    requires FindUser(users, u.id) == Some(u) && u.isBlocked
    ensures Authenticate(users, cookie, authorization, verify) == Fail(Unauthorized)
  {
  }

  /** `roleMiddleware(...roles)`: 403 unless a principal is present and its
      role is one of `roles`. */
  function RoleMiddleware(user: Option<Principal>, roles: seq<Role>): (r: Outcome<Principal>)
    ensures r.Ok? <==> user.Some? && user.value.role in roles
    ensures r.Ok? ==> r.value == user.value
    ensures r.Fail? ==> r.error == Forbidden
  {
    if user.None? || user.value.role !in roles then Fail(Forbidden) else Ok(user.value)
  }
}
