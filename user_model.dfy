/**
 * The user record and its request/response shapes (src/api/v1/models/user.rs),
 * with the role predicates.
 */
module UserModel {
  import opened Prelude

  /** A UUID, known by its canonical text (`Uuid::to_string`). */
  datatype Uuid = Uuid(text: string)

  /** A point in time; only copied, never compared. */
  datatype Timestamp = Timestamp(millis: int)

  datatype User = User(
    id: Uuid,
    name: string,
    email: string,
    password: string,       // the stored password hash
    role: string,
    verified: bool,
    createdAt: Option<Timestamp>,
    updatedAt: Option<Timestamp>,
    passwordRev: Uuid)

  datatype RegisterUserSchema = RegisterUserSchema(name: string, email: string, password: string)
  datatype LoginUserSchema = LoginUserSchema(email: string, password: string)
  /** The JWT claims: both fields are UUIDs rendered as text. */
  datatype JwtUser = JwtUser(id: string, passwordRev: string)
  /**
   * The JSON body of a token: the `JwtUser` fields and the registered `exp`
   * claim (seconds since the epoch), which `JwtUser` itself does not have.
   */
  datatype TokenPayload = TokenPayload(claims: JwtUser, exp: Option<int>)
  /** What the API reveals of a user. */
  datatype FilteredUser = FilteredUser(id: string, name: string, email: string, role: string, verified: bool)
  datatype CreateUser = CreateUser(name: string, email: string, password: string, role: string, verified: bool)
  datatype UpdateUserData = UpdateUserData(name: string, email: string, role: string, verified: bool, id: string)
  datatype UpdateUser = UpdateUser(name: string, email: string)
  datatype ForceUpdateUser = ForceUpdateUser(name: string, email: string, role: string, verified: bool, id: string)

  const AdminRole := "admin"
  const UserRole := "user"
  const ModeratorRole := "moderator"

  /** `roles.contains(&self.role)`: a scan of the slice for an exactly equal string. */
  function HasRole(user: User, roles: seq<string>): (r: bool)
    ensures r <==> exists i :: 0 <= i < |roles| && roles[i] == user.role
  {
    if roles == [] then false
    else if roles[0] == user.role then true
    else
      var rest := HasRole(user, roles[1..]);
      assert forall i :: 1 <= i < |roles| ==> roles[i] == roles[1..][i - 1];
      rest
  }

  function IsAdmin(user: User): (r: bool)
    ensures r <==> user.role == AdminRole
  {
    HasRole(user, [AdminRole])
  }

  function IsUser(user: User): (r: bool)
    ensures r <==> user.role == UserRole
  {
    HasRole(user, [UserRole])
  }

  function IsModerator(user: User): (r: bool)
    ensures r <==> user.role == ModeratorRole
  {
    HasRole(user, [ModeratorRole])
  }

  /** `is_verified`: the flag as stored. */
  function IsVerified(user: User): bool {
    user.verified
  }

  /** A user holds at most one of the three named roles. */
  lemma RolesAreExclusive(user: User)
    ensures !(IsAdmin(user) && IsUser(user))
    ensures !(IsAdmin(user) && IsModerator(user))
    ensures !(IsUser(user) && IsModerator(user))
  {
    assert AdminRole != UserRole by { assert AdminRole[0] != UserRole[0]; }
    assert AdminRole != ModeratorRole by { assert AdminRole[0] != ModeratorRole[0]; }
    assert UserRole != ModeratorRole by { assert UserRole[0] != ModeratorRole[0]; }
  }

  /** The comparison is exact: a role that differs in letter case is not the admin role. */
  lemma RoleCheckIsCaseSensitive(user: User)
    requires user.role == "Admin"
    ensures !IsAdmin(user)
  {
    assert user.role[0] != AdminRole[0];
  }
}
