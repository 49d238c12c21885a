/** The user record as the routes and the middleware use it. */
module UserModel {
  import opened Common

  /** An account. `passwordHash` is the bcrypt digest of the password;
      `isBlocked` is the flag the admin block route sets. */
  datatype User = User(
    id: ObjectId,
    name: string,
    email: string,
    phone: string,
    passwordHash: string,
    role: Role,
    isBlocked: bool)

  /** The position `User.findById(id)` loads. */
  function UserIndex(users: seq<User>, id: ObjectId): (r: Option<nat>)
    ensures r.Some? ==> r.value < |users| && users[r.value].id == id
    ensures r.None? <==> forall u :: u in users ==> u.id != id
  {
    FindIndex(users, (u: User) => u.id == id)
  }

  /** `User.findById(id)`. */
  function FindUser(users: seq<User>, id: ObjectId): (r: Option<User>)
    ensures r.Some? ==> r.value in users && r.value.id == id
    ensures r.None? <==> forall u :: u in users ==> u.id != id
    ensures r.Some? <==> UserIndex(users, id).Some?
    ensures r.Some? ==> r.value == users[UserIndex(users, id).value]
  {
    match UserIndex(users, id)
    case None => None
    case Some(i) => Some(users[i])
  }

  /** The principal a loaded user becomes once authenticated. */
  function PrincipalOf(u: User): Principal {
    Principal(u.id, u.role)
  }
}
