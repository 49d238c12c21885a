/** The account routes: registration with its field validation and
    duplicate check, login with its order of checks, and the refresh of
    an access token. Hashing and comparing passwords, checking an email
    address's shape and verifying a refresh token are parameters; issuing
    tokens and setting cookies are not part of this model. */
module AuthRoutes {
  import opened Common
  import opened UserModel
  import opened WorkerProfileModel
  import opened Store

  /** The body of POST /auth/register; an absent field is validated as
      the empty string. */
  datatype RegisterBody = RegisterBody(name: string, email: string, phone: string, password: string, role: string)

  /** The validated fields of the registration body. */
  datatype Field = NameField | EmailField | PhoneField | PasswordField | RoleField

  /** The fields in the order their validators are declared. */
  const Fields: seq<Field> := [NameField, EmailField, PhoneField, PasswordField, RoleField]

  /** The validator of field `f` rejects the body: the name is trimmed
      and must not be empty, the email must pass `isEmail`, the phone
      must not be empty, the password needs at least six characters, and
      the role must be one of the four role names. */
  predicate Rejects(b: RegisterBody, isEmail: string -> bool, f: Field) {
    match f
    case NameField => Trim(b.name) == ""
    case EmailField => !isEmail(b.email)
    case PhoneField => b.phone == ""
    case PasswordField => |b.password| < 6
    case RoleField => ParseRole(b.role).None?
  }

  lemma FieldsComplete()
    ensures forall f: Field :: f in Fields
  {
    forall f: Field ensures f in Fields {
      match f
      case NameField => assert Fields[0] == f;
      case EmailField => assert Fields[1] == f;
      case PhoneField => assert Fields[2] == f;
      case PasswordField => assert Fields[3] == f;
      case RoleField => assert Fields[4] == f;
    }
  }

  /** The fields whose validator rejects the body, in declaration order. */
  function RegisterErrors(b: RegisterBody, isEmail: string -> bool): (r: seq<Field>)
    ensures forall f :: f in r <==> Rejects(b, isEmail, f)
  {
    FieldsComplete();
    Filter(Fields, (f: Field) => Rejects(b, isEmail, f))
  }

  /** The body passes validation exactly when every validator passes. */
  lemma ValidatedExactly(b: RegisterBody, isEmail: string -> bool)
    ensures RegisterErrors(b, isEmail) == [] <==>
      !Blank(b.name) && isEmail(b.email) && b.phone != "" && |b.password| >= 6 && ParseRole(b.role).Some?
  {
    var r := RegisterErrors(b, isEmail);
    TrimShape(b.name);
    if r != [] {
      assert r[0] in r;
      match r[0]
      case NameField =>
      case EmailField =>
      case PhoneField =>
      case PasswordField =>
      case RoleField =>
    }
    if Blank(b.name) {
      assert NameField in r;
    }
    if !isEmail(b.email) {
      assert EmailField in r;
    }
    if b.phone == "" {
      assert PhoneField in r;
    }
    if |b.password| < 6 {
      assert PasswordField in r;
    }
    if ParseRole(b.role).None? {
      assert RoleField in r;
    }
  }

  /** A stored user already has the email or the phone. */
  predicate Taken(users: seq<User>, email: string, phone: string) {
    exists u :: u in users && (u.email == email || u.phone == phone)
  }

  /** The outcome of registration for a store holding `users`, when the
      new account would get id `id` and the password hashes to `hash`:
      400 for a failing validator or a taken email or phone; otherwise the
      new account, with its name trimmed, unblocked, with the role the
      body names. */
  function Registration(users: seq<User>, b: RegisterBody, isEmail: string -> bool, id: ObjectId, hash: string)
    : (r: Outcome<User>)
    ensures r.Fail? ==> r.error == BadRequest
    ensures r.Ok? <==> RegisterErrors(b, isEmail) == [] && !Taken(users, b.email, b.phone)
    ensures r.Ok? ==>
      && r.value.id == id && r.value.name == Trim(b.name) && r.value.name != ""
      && r.value.email == b.email && r.value.phone == b.phone
      && r.value.passwordHash == hash && RoleName(r.value.role) == b.role && !r.value.isBlocked
  {
    if RegisterErrors(b, isEmail) != [] || Taken(users, b.email, b.phone) then Fail(BadRequest)
    else Ok(User(id, Trim(b.name), b.email, b.phone, hash, ParseRole(b.role).value, false))
  }

  /** Registration is open to the admin role: anyone can create an admin
      account. */
  lemma AdminSelfRegistration(users: seq<User>, b: RegisterBody, isEmail: string -> bool, id: ObjectId, hash: string)
    requires b.role == "ADMIN" && RegisterErrors(b, isEmail) == [] && !Taken(users, b.email, b.phone)
    ensures Registration(users, b, isEmail, id, hash).Ok?
    ensures Registration(users, b, isEmail, id, hash).value.role == Admin
  {
  }

  /** No two accounts share an email or a phone. */
  predicate ContactsUnique(users: seq<User>) {
    forall i, j :: 0 <= i < j < |users| ==> users[i].email != users[j].email && users[i].phone != users[j].phone
  }

  /** Registration keeps emails and phones unique. */
  lemma RegistrationKeepsContactsUnique(users: seq<User>, b: RegisterBody, isEmail: string -> bool, id: ObjectId, hash: string)
    requires ContactsUnique(users)
    requires Registration(users, b, isEmail, id, hash).Ok?
    ensures ContactsUnique(users + [Registration(users, b, isEmail, id, hash).value])
  {
    var u := Registration(users, b, isEmail, id, hash).value;
    var after := users + [u];
    forall i, j | 0 <= i < j < |after| ensures after[i].email != after[j].email && after[i].phone != after[j].phone {
      if j == |users| {
        assert users[i] in users;
      }
    }
  }

  /** POST /auth/register: the outcome of `Registration` with the next
      id; a new account is appended to the users. */
  method Register(db: Database, b: RegisterBody, isEmail: string -> bool, hash: string) returns (r: Outcome<User>)
    requires db.Valid()
    modifies db
    ensures db.Valid()
    ensures r == Registration(old(db.users), b, isEmail, old(db.nextId), hash)
    ensures r.Ok? ==> db.Snapshot() == old(db.Snapshot()).(users := old(db.users) + [r.value], nextId := old(db.nextId) + 1)
    ensures r.Fail? ==> db.Snapshot() == old(db.Snapshot())
  {
    var s := db.Snapshot();
    r := Registration(s.users, b, isEmail, s.nextId, hash);
    assert Invariant(s);
    if r.Ok? {
      InsertUser(s, r.value);
      db.users, db.nextId := s.users + [r.value], s.nextId + 1;
      assert db.Snapshot() == s.(users := s.users + [r.value], nextId := s.nextId + 1);
    }
  }

  /** `User.findOne({ email })`. */
  function FindByEmail(users: seq<User>, email: string): (r: Option<User>)
    ensures r.Some? ==> r.value in users && r.value.email == email
    ensures r.None? <==> forall u :: u in users ==> u.email != email
  {
    match FindIndex(users, (u: User) => u.email == email)
    case None => None
    case Some(i) => Some(users[i])
  }

  /** What a successful login reports. */
  datatype Session = Session(user: Principal, hasProfile: bool)

  /** POST /auth/login: 400 when the email is not an email or the password
      is empty; 401 for an unknown email or a wrong password; only then
      403 for a blocked account. `matches(password, hash)` is bcrypt's
      comparison. */
  function Login(users: seq<User>, profiles: seq<WorkerProfile>, email: string, password: string,
                 isEmail: string -> bool, matches: (string, string) -> bool): (r: Outcome<Session>)
    ensures !isEmail(email) || password == "" ==> r == Fail(BadRequest)
    ensures isEmail(email) && password != "" ==>
      match FindByEmail(users, email)
      case None => r == Fail(Unauthorized)
      case Some(u) =>
        && (!matches(password, u.passwordHash) ==> r == Fail(Unauthorized))
        && (matches(password, u.passwordHash) && u.isBlocked ==> r == Fail(Forbidden))
        && (matches(password, u.passwordHash) && !u.isBlocked ==> r.Ok? && r.value.user == PrincipalOf(u))
    ensures r.Ok? ==> (r.value.hasProfile <==> exists p :: p in profiles && p.userId == r.value.user.id)
  {
    if !isEmail(email) || password == "" then Fail(BadRequest)
    else match FindByEmail(users, email)
      case None => Fail(Unauthorized)
      case Some(u) =>
        if !matches(password, u.passwordHash) then Fail(Unauthorized)
        else if u.isBlocked then Fail(Forbidden)
        else Ok(Session(PrincipalOf(u), FindProfileOf(profiles, u.id).Some?))
  }

  /** A wrong password is reported as 401 even for a blocked account: the
      block is not revealed to someone without the password. */
  lemma WrongPasswordHidesBlock(users: seq<User>, profiles: seq<WorkerProfile>, u: User, password: string,
                                isEmail: string -> bool, matches: (string, string) -> bool)
    requires isEmail(u.email) && password != ""
    requires FindByEmail(users, u.email) == Some(u) && u.isBlocked && !matches(password, u.passwordHash)
    ensures Login(users, profiles, u.email, password, isEmail, matches) == Fail(Unauthorized)
  {
  }

  /** A blocked user who knows the password gets 403. */
  lemma BlockedLoginForbidden(users: seq<User>, profiles: seq<WorkerProfile>, u: User, password: string,
                              isEmail: string -> bool, matches: (string, string) -> bool)
    requires isEmail(u.email) && password != ""
    requires FindByEmail(users, u.email) == Some(u) && u.isBlocked && matches(password, u.passwordHash)
    ensures Login(users, profiles, u.email, password, isEmail, matches) == Fail(Forbidden)
  {
  }

  /** POST /auth/refresh: 401 when the token is missing or empty, when it
      does not verify, or when its user does not exist; otherwise the user
      a new access token is issued for. `verify` is `verifyRefreshToken`,
      `None` where it throws. */
  function Refresh(users: seq<User>, refreshToken: Option<string>, verify: string -> Option<ObjectId>)
    : (r: Outcome<Principal>)
    ensures !Given(refreshToken) ==> r == Fail(Unauthorized)
    ensures r.Fail? ==> r.error == Unauthorized
    ensures r.Ok? <==>
      && Given(refreshToken)
      && verify(refreshToken.value).Some?
      && FindUser(users, verify(refreshToken.value).value).Some?
    ensures r.Ok? ==> r.value == PrincipalOf(FindUser(users, verify(refreshToken.value).value).value)
  {
    if !Given(refreshToken) then Fail(Unauthorized)
    else match verify(refreshToken.value)
      case None => Fail(Unauthorized)
      case Some(userId) =>
        match FindUser(users, userId)
        case None => Fail(Unauthorized)
        case Some(u) => Ok(PrincipalOf(u))
  }

  /** The refresh route does not look at `isBlocked`: a blocked user with
      a valid refresh token still gets a new access token (which the
      middleware will then refuse). */
  lemma BlockedUserRefreshes(users: seq<User>, u: User, token: string, verify: string -> Option<ObjectId>)
    requires token != "" && verify(token) == Some(u.id) && FindUser(users, u.id) == Some(u) && u.isBlocked
    ensures Refresh(users, Some(token), verify) == Ok(PrincipalOf(u))
  {
  }
}
